/** Which rows a query for the newest ones by time may answer with, and exactly when that is the last rows in
    insertion order (the history query of backend/chat_pipeline.py). */
module HistoryWindow {

  function Size(times: seq<int>, limit: nat): (n: nat)
    ensures n <= |times|
  {
    if limit < |times| then limit else |times|
  }

  /** The positions a query for the newest `limit` rows by time may return, oldest first;
      rows with equal times may come in any order. */
  predicate Newest(times: seq<int>, limit: nat, picks: seq<int>) {
    && |picks| == Size(times, limit)
    && (forall i :: 0 <= i < |picks| ==> 0 <= picks[i] < |times|)
    && (forall i, j :: 0 <= i < j < |picks| ==> picks[i] != picks[j] && times[picks[i]] <= times[picks[j]])
    && (forall k, i :: 0 <= k < |times| && 0 <= i < |picks| && k !in picks ==> times[k] <= times[picks[i]])
  }

  /** The picked positions are the last ones in insertion order. */
  predicate LastPositions(times: seq<int>, picks: seq<int>) {
    forall i :: 0 <= i < |picks| ==> picks[i] == |times| - |picks| + i
  }

  /** The last `limit` rows have strictly increasing times, all later than every earlier row. */
  predicate Settled(times: seq<int>, limit: nat) {
    forall i, j :: 0 <= i < j < |times| && |times| - Size(times, limit) <= j ==> times[i] < times[j]
  }

  /** Whatever the query does with equal times, it answers with the last positions. */
  ghost predicate AlwaysLast(times: seq<int>, limit: nat) {
    forall picks :: Newest(times, limit, picks) ==> LastPositions(times, picks)
  }

  // ----- a settled window leaves the query no choice -------------------------------------------

  lemma {:induction false} PicksAreLast(times: seq<int>, limit: nat, picks: seq<int>, i: nat)
    requires Settled(times, limit) && Newest(times, limit, picks) && i < |picks|
    ensures picks[i] == |times| - |picks| + i
    decreases |picks| - i
  {
    forall j | i < j < |picks|
      ensures picks[j] == |times| - |picks| + j
    {
      PicksAreLast(times, limit, picks, j);
    }
    if i + 1 < |picks| {
      assert picks[i] != picks[i + 1] && times[picks[i]] <= times[picks[i + 1]];
    }
    DueIsNoLater(times, limit, picks, i);
  }

  /** No row is picked for a place later than its turn. */
  lemma DueIsNoLater(times: seq<int>, limit: nat, picks: seq<int>, i: nat)
    requires Settled(times, limit) && Newest(times, limit, picks) && i < |picks|
    requires forall j :: i < j < |picks| ==> picks[j] == |times| - |picks| + j
    ensures |times| - |picks| + i <= picks[i]
  {
    var due := |times| - |picks| + i;
    assert times[due] <= times[picks[i]] by {
      if j :| 0 <= j < |picks| && picks[j] == due {
        assert j <= i;
      }
    }
  }

  // ----- the query always has an answer ------------------------------------------------------------

  lemma {:induction false} DistinctBelow(picks: seq<int>, bound: nat)
    requires forall i, j :: 0 <= i < j < |picks| ==> picks[i] != picks[j]
    requires forall k: int :: 0 <= k < bound ==> k in picks
    ensures bound <= |picks|
  {
    if bound > 0 {
      var last: int := bound - 1;
      assert last in picks;
      var i :| 0 <= i < |picks| && picks[i] == last;
      var rest := picks[..i] + picks[i + 1..];
      forall k: int | 0 <= k < last
        ensures k in rest
      {
        assert k in picks;
        var j :| 0 <= j < |picks| && picks[j] == k;
        assert k == if j < i then rest[j] else rest[j - 1];
      }
      DistinctBelow(rest, bound - 1);
    }
  }

  ghost predicate Unpicked(picks: seq<int>, n: nat, k: int) {
    0 <= k < n && k !in picks
  }

  /** Among the first `n` rows, a newest one that was not picked. */
  lemma {:induction false} NewestUnpicked(times: seq<int>, picks: seq<int>, n: nat) returns (k: int)
    requires n <= |times| && exists j :: Unpicked(picks, n, j)
    ensures Unpicked(picks, n, k) && forall j :: Unpicked(picks, n, j) ==> times[j] <= times[k]
  {
    var last := n - 1;
    if j :| Unpicked(picks, last, j) {
      k := NewestUnpicked(times, picks, last);
      assert forall j :: Unpicked(picks, n, j) ==> Unpicked(picks, last, j) || j == last;
      if last !in picks && times[last] > times[k] {
        k := last;
      }
    } else {
      k := last;
      assert forall j :: Unpicked(picks, n, j) ==> Unpicked(picks, last, j) || j == last;
    }
  }

  lemma PickFront(times: seq<int>, rest: seq<int>, k: int)
    requires Newest(times, |rest|, rest) && |rest| < |times| && Unpicked(rest, |times|, k)
    requires forall j :: Unpicked(rest, |times|, j) ==> times[j] <= times[k]
    ensures Newest(times, |rest| + 1, [k] + rest)
  {
    var picks := [k] + rest;
    forall i, j | 0 <= i < j < |picks|
      ensures picks[i] != picks[j] && times[picks[i]] <= times[picks[j]]
    {
      assert picks[j] == rest[j - 1];
    }
    forall x, i | 0 <= x < |times| && 0 <= i < |picks| && x !in picks
      ensures times[x] <= times[picks[i]]
    {
      assert Unpicked(rest, |times|, x);
    }
  }

  lemma {:induction false} NewestExists(times: seq<int>, n: nat) returns (picks: seq<int>)
    requires n <= |times|
    ensures Newest(times, n, picks)
  {
    if n == 0 {
      return [];
    }
    var rest := NewestExists(times, n - 1);
    assert exists k :: Unpicked(rest, |times|, k) by {
      if forall k: int :: 0 <= k < |times| ==> k in rest {
        DistinctBelow(rest, |times|);
      } else {
        var k: int :| 0 <= k < |times| && k !in rest;
        assert Unpicked(rest, |times|, k);
      }
    }
    var k := NewestUnpicked(times, rest, |times|);
    PickFront(times, rest, k);
    picks := [k] + rest;
  }

  // ----- why a settled window is also necessary -------------------------------------------------------

  /** If the query always answers with the last positions, they are one of its answers. */
  lemma LastAreNewest(times: seq<int>, limit: nat) returns (picks: seq<int>)
    requires AlwaysLast(times, limit)
    ensures Newest(times, limit, picks) && LastPositions(times, picks)
  {
    picks := NewestExists(times, Size(times, limit));
    assert Newest(times, limit, picks);
  }

  function Swapped(picks: seq<int>, a: nat, b: nat): (r: seq<int>)
    requires a < b < |picks|
    ensures |r| == |picks|
  {
    picks[a := picks[b]][b := picks[a]]
  }

  lemma SwapKeepsMembers(picks: seq<int>, a: nat, b: nat, x: int)
    requires a < b < |picks|
    ensures x in picks ==> x in Swapped(picks, a, b)
  {
    if x in picks {
      var i :| 0 <= i < |picks| && picks[i] == x;
      assert Swapped(picks, a, b)[if i == a then b else if i == b then a else i] == x;
    }
  }

  /** A rearrangement of an answer that keeps the time at every place is an answer. */
  lemma SameTimesStayNewest(times: seq<int>, limit: nat, picks: seq<int>, others: seq<int>)
    requires Newest(times, limit, picks) && |others| == |picks|
    requires forall i :: 0 <= i < |others| ==> 0 <= others[i] < |times| && times[others[i]] == times[picks[i]]
    requires forall i, j :: 0 <= i < j < |others| ==> others[i] != others[j]
    requires forall x :: x in picks ==> x in others
    ensures Newest(times, limit, others)
  {
  }

  lemma SwapStaysNewest(times: seq<int>, limit: nat, picks: seq<int>, a: nat, b: nat)
    requires Newest(times, limit, picks) && a < b < |picks| && times[picks[a]] == times[picks[b]]
    ensures Newest(times, limit, Swapped(picks, a, b))
  {
    forall x | x in picks
      ensures x in Swapped(picks, a, b)
    {
      SwapKeepsMembers(picks, a, b, x);
    }
    SameTimesStayNewest(times, limit, picks, Swapped(picks, a, b));
  }

  /** Two neighbours of equal time could be answered in either order. */
  lemma NeighboursDiffer(times: seq<int>, limit: nat, i: nat)
    requires AlwaysLast(times, limit) && |times| - Size(times, limit) <= i && i + 1 < |times|
    ensures times[i] < times[i + 1]
  {
    var picks := LastAreNewest(times, limit);
    var a := i - |times| + |picks|;
    assert picks[a] == i && picks[a + 1] == i + 1;
    assert Swapped(picks, a, a + 1)[a] == i + 1;
    assert !LastPositions(times, Swapped(picks, a, a + 1));
    if times[i] == times[i + 1] {
      SwapStaysNewest(times, limit, picks, a, a + 1);
    }
  }

  lemma ReplaceStaysNewest(times: seq<int>, limit: nat, picks: seq<int>, k: int)
    requires Newest(times, limit, picks) && picks != [] && 0 <= k < |times| && k !in picks
    requires times[k] == times[picks[0]]
    ensures Newest(times, limit, picks[0 := k])
  {
    var replaced := picks[0 := k];
    assert forall j :: 1 <= j < |picks| ==> replaced[j] == picks[j];
    forall x, i | 0 <= x < |times| && 0 <= i < |picks| && x !in replaced
      ensures times[x] <= times[replaced[i]]
    {
      assert x !in picks || x == picks[0];
    }
  }

  /** An earlier row as new as the window's first could be answered in its place. */
  lemma EarlierIsOlder(times: seq<int>, limit: nat, i: nat)
    requires AlwaysLast(times, limit) && i < |times| - Size(times, limit) < |times|
    ensures times[i] < times[|times| - Size(times, limit)]
  {
    var picks := LastAreNewest(times, limit);
    assert picks[0] == |times| - Size(times, limit) && i !in picks;
    assert picks[0 := i][0] == i;
    assert !LastPositions(times, picks[0 := i]);
    if times[i] == times[picks[0]] {
      ReplaceStaysNewest(times, limit, picks, i);
    }
  }

  lemma {:induction false} TimesRise(times: seq<int>, limit: nat, i: nat, j: nat)
    requires AlwaysLast(times, limit) && i < j < |times| && |times| - Size(times, limit) <= j
    ensures times[i] < times[j]
  {
    if j == |times| - Size(times, limit) {
      EarlierIsOlder(times, limit, i);
    } else {
      NeighboursDiffer(times, limit, j - 1);
      if i < j - 1 {
        TimesRise(times, limit, i, j - 1);
      }
    }
  }

  /** The query answers with the last positions in insertion order, whatever it does with equal times, if and
      only if the window is settled. An inversion older than the window does no harm. */
  lemma LastExactlyWhenSettled(times: seq<int>, limit: nat)
    ensures AlwaysLast(times, limit) <==> Settled(times, limit)
  {
    if AlwaysLast(times, limit) {
      forall i, j | 0 <= i < j < |times| && |times| - Size(times, limit) <= j
        ensures times[i] < times[j]
      {
        TimesRise(times, limit, i, j);
      }
    }
    if Settled(times, limit) {
      forall picks | Newest(times, limit, picks)
        ensures LastPositions(times, picks)
      {
        forall i | 0 <= i < |picks|
          ensures picks[i] == |times| - |picks| + i
        {
          PicksAreLast(times, limit, picks, i);
        }
      }
    }
  }

  // ----- which row a window may start with ------------------------------------------------------------

  function Newer(times: seq<int>, t: int): set<int> {
    set j | 0 <= j < |times| && times[j] > t
  }

  function NoOlder(times: seq<int>, t: int): set<int> {
    set j | 0 <= j < |times| && times[j] >= t
  }

  /** Fewer rows than the window holds are newer than `t`, and enough to fill it are no older. */
  ghost predicate Threshold(times: seq<int>, limit: nat, t: int) {
    |Newer(times, t)| < Size(times, limit) <= |NoOlder(times, t)|
  }

  ghost predicate MayLead(times: seq<int>, limit: nat, k: int) {
    0 <= k < |times| && Threshold(times, limit, times[k])
  }

  lemma {:induction false} DistinctCount(picks: seq<int>)
    requires forall i, j :: 0 <= i < j < |picks| ==> picks[i] != picks[j]
    ensures |set x | x in picks| == |picks|
  {
    if picks != [] {
      var front, last := picks[..|picks| - 1], picks[|picks| - 1];
      DistinctCount(front);
      assert picks == front + [last];
      assert (set x | x in picks) == (set x | x in front) + {last};
    }
  }

  lemma {:induction false} SubsetCount<T>(a: set<T>, b: set<T>)
    requires a <= b
    ensures |a| <= |b|
  {
    if a != {} {
      var x :| x in a;
      SubsetCount(a - {x}, b - {x});
    }
  }

  lemma FirstIsThreshold(times: seq<int>, limit: nat, picks: seq<int>)
    requires Newest(times, limit, picks) && picks != []
    ensures Threshold(times, limit, times[picks[0]])
  {
    var t, members := times[picks[0]], set x | x in picks;
    DistinctCount(picks);
    assert Newer(times, t) <= members - {picks[0]} by {
      forall j | j in Newer(times, t)
        ensures j in picks && j != picks[0]
      {
      }
    }
    SubsetCount(Newer(times, t), members - {picks[0]});
    assert picks[0] in members && |members - {picks[0]}| == |members| - 1;
    assert members <= NoOlder(times, t);
    SubsetCount(members, NoOlder(times, t));
  }

  lemma ThresholdUnique(times: seq<int>, limit: nat, a: int, b: int)
    requires Threshold(times, limit, a) && Threshold(times, limit, b)
    ensures a >= b
  {
    if a < b {
      SubsetCount(NoOlder(times, b), Newer(times, a));
    }
  }

  /** Any row as new as the first one of an answer may take its place. */
  lemma Lead(times: seq<int>, limit: nat, picks: seq<int>, k: int) returns (led: seq<int>)
    requires Newest(times, limit, picks) && picks != []
    requires 0 <= k < |times| && times[k] == times[picks[0]]
    ensures Newest(times, limit, led) && led != [] && led[0] == k
  {
    if k !in picks {
      ReplaceStaysNewest(times, limit, picks, k);
      led := picks[0 := k];
    } else {
      var j :| 0 <= j < |picks| && picks[j] == k;
      if j == 0 {
        led := picks;
      } else {
        SwapStaysNewest(times, limit, picks, 0, j);
        led := Swapped(picks, 0, j);
      }
    }
  }

  /** A row may come first in an answer if and only if fewer rows than the window holds are newer than it and
      enough to fill the window are no older. */
  lemma LeadsExactly(times: seq<int>, limit: nat, k: int)
    ensures MayLead(times, limit, k) <==>
              exists picks :: Newest(times, limit, picks) && picks != [] && picks[0] == k
  {
    if MayLead(times, limit, k) {
      var picks := NewestExists(times, Size(times, limit));
      assert Newest(times, limit, picks);
      FirstIsThreshold(times, limit, picks);
      ThresholdUnique(times, limit, times[k], times[picks[0]]);
      ThresholdUnique(times, limit, times[picks[0]], times[k]);
      var led := Lead(times, limit, picks, k);
    }
    forall picks | Newest(times, limit, picks) && picks != [] && picks[0] == k
      ensures MayLead(times, limit, k)
    {
      FirstIsThreshold(times, limit, picks);
    }
  }
}
