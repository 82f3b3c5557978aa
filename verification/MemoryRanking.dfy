/** Ranking memories for a query: literal and concept matches first, then safe fallback
    (backend/memory_retrieval.py). */
module MemoryRanking {
  import opened PyText

  /** A memory with the normalised keywords of its content, project and type. */
  datatype Memory = Memory(
    id: string, project: Option<string>, recency: string,
    content: seq<string>, projectWords: seq<string>, kindWords: seq<string>)

  predicate Distinct(words: seq<string>) {
    forall i, j :: 0 <= i < j < |words| ==> words[i] != words[j]
  }

  // ----- the query --------------------------------------------------------------------------

  const MAX_QUERY_TOKENS := 40
  const MAX_EXPANDED_TOKENS := 120

  /** At most forty different keywords in their original order; fewer only if there are no more. */
  method TokenizeKeywords(words: seq<string>) returns (unique: seq<string>)
    ensures Distinct(unique) && |unique| <= MAX_QUERY_TOKENS && forall w :: w in unique ==> w in words
    ensures |unique| < MAX_QUERY_TOKENS ==> forall w :: w in words ==> w in unique
    ensures Firsts(words, unique)
  {
    var seen: set<string> := {};
    unique := [];
    for k := 0 to |words|
      invariant seen == (set w | w in unique) && Distinct(unique) && |unique| < MAX_QUERY_TOKENS
      invariant forall w :: w in unique ==> w in words[..k]
      invariant forall w :: w in words[..k] ==> w in unique
      invariant Firsts(words[..k], unique)
    {
      assert words[..k + 1] == words[..k] + [words[k]];
      FirstsPush(words[..k], unique, words[k]);
      if words[k] in seen {
        continue;
      }
      seen := seen + {words[k]};
      unique := unique + [words[k]];
      if |unique| >= MAX_QUERY_TOKENS {
        FirstsPrefix(words, k + 1, unique);
        return;
      }
    }
    assert words[..|words|] == words;
  }

  /** Position of the first occurrence. */
  function FirstAt(words: seq<string>, w: string): (i: nat)
    requires w in words
    ensures i < |words| && words[i] == w && forall j :: 0 <= j < i ==> words[j] != w
  {
    if words[0] == w then 0 else 1 + FirstAt(words[1..], w)
  }

  /** The chosen words stand in the order of their first occurrences. */
  ghost predicate Firsts(words: seq<string>, chosen: seq<string>) {
    && (forall w :: w in chosen ==> w in words)
    && (forall i, j :: 0 <= i < j < |chosen| ==> FirstAt(words, chosen[i]) < FirstAt(words, chosen[j]))
  }

  lemma FirstAtPrefix(words: seq<string>, n: nat, w: string)
    requires n <= |words| && w in words[..n]
    ensures w in words && FirstAt(words, w) == FirstAt(words[..n], w)
  {
    var i := FirstAt(words[..n], w);
    assert words[i] == w && forall j :: 0 <= j < i ==> words[j] == words[..n][j];
  }

  lemma FirstsPrefix(words: seq<string>, n: nat, chosen: seq<string>)
    requires n <= |words| && Firsts(words[..n], chosen)
    ensures Firsts(words, chosen)
  {
    forall w | w in chosen
      ensures w in words && FirstAt(words, w) == FirstAt(words[..n], w)
    {
      FirstAtPrefix(words, n, w);
    }
  }

  lemma FirstsPush(words: seq<string>, chosen: seq<string>, w: string)
    requires Firsts(words, chosen)
    ensures Firsts(words + [w], chosen) && (w !in words ==> Firsts(words + [w], chosen + [w]))
  {
    var all := words + [w];
    assert all[..|words|] == words;
    FirstsPrefix(all, |words|, chosen);
    if w !in words {
      var next := chosen + [w];
      forall i, j | 0 <= i < j < |next|
        ensures FirstAt(all, next[i]) < FirstAt(all, next[j])
      {
        if j == |chosen| {
          FirstAtPrefix(all, |words|, chosen[i]);
          assert forall k :: 0 <= k < |words| ==> all[k] == words[k];
        }
      }
    }
  }

  /** The literal tokens come first, then different aliases of them; all of them unless the cap is met. */
  method ExpandQueryConcepts(tokens: seq<string>, aliases: string -> seq<string>) returns (expanded: seq<string>)
    requires Distinct(tokens) && |tokens| <= MAX_QUERY_TOKENS
    ensures tokens <= expanded && Distinct(expanded) && |expanded| <= MAX_EXPANDED_TOKENS
    ensures forall w :: w in expanded ==> w in tokens || exists t :: t in tokens && w in aliases(t)
    ensures |expanded| < MAX_EXPANDED_TOKENS ==> forall t, w :: t in tokens && w in aliases(t) ==> w in expanded
  {
    expanded := tokens;
    for k := 0 to |tokens|
      invariant tokens <= expanded && Distinct(expanded) && |expanded| < MAX_EXPANDED_TOKENS
      invariant forall w :: w in expanded ==> w in tokens || exists t :: t in tokens && w in aliases(t)
      invariant forall i, w :: 0 <= i < k && w in aliases(tokens[i]) ==> w in expanded
    {
      var more := aliases(tokens[k]);
      assert tokens[k] in tokens;
      for j := 0 to |more|
        invariant tokens <= expanded && Distinct(expanded) && |expanded| < MAX_EXPANDED_TOKENS
        invariant forall w :: w in expanded ==> w in tokens || exists t :: t in tokens && w in aliases(t)
        invariant forall i, w :: 0 <= i < k && w in aliases(tokens[i]) ==> w in expanded
        invariant forall w :: w in more[..j] ==> w in expanded
      {
        assert more[..j + 1] == more[..j] + [more[j]] && more[j] in more;
        if more[j] !in expanded {
          expanded := expanded + [more[j]];
          if |expanded| >= MAX_EXPANDED_TOKENS {
            return;
          }
        }
      }
      assert more[..|more|] == more;
    }
  }

  // ----- scoring ------------------------------------------------------------------------------

  datatype Query = Query(literal: seq<string>, expanded: seq<string>, project: Option<string>, fold: string -> string)

  function Words(ws: seq<string>): set<string> {
    set w | w in ws
  }

  predicate StandsAt(candidate: seq<string>, query: seq<string>, i: int) {
    0 <= i <= |candidate| - |query| && candidate[i..i + |query|] == query
  }

  predicate ContainsSequence(candidate: seq<string>, query: seq<string>) {
    query != [] && exists i :: 0 <= i <= |candidate| && StandsAt(candidate, query, i)
  }

  /** More open to scope: the query's own project, then no project, then others. */
  function ScopeRank(q: Query, m: Memory): int {
    if q.project.None? then 0
    else if m.project.Some? && m.project.value != "" && q.fold(m.project.value) == q.fold(q.project.value) then 2
    else if m.project.None? then 1 else 0
  }

  predicate Hits(tokens: set<string>, m: Memory) {
    tokens * Words(m.content) != {} || tokens * Words(m.projectWords) != {} || tokens * Words(m.kindWords) != {}
  }

  function Score(q: Query, m: Memory): nat {
    var literal := Words(q.literal);
    var aliases := Words(q.expanded) - literal;
    (if ContainsSequence(m.content, q.literal) then 20 else 0)
      + 6 * |literal * Words(m.content)| + 4 * |literal * Words(m.projectWords)| + 2 * |literal * Words(m.kindWords)|
      + 2 * |aliases * Words(m.content)| + |aliases * Words(m.projectWords)| + |aliases * Words(m.kindWords)|
  }

  function MatchScore(q: Query, m: Memory): Option<nat> {
    var literal := Words(q.literal);
    if q.literal == [] then None
    else if !Hits(literal, m) && !Hits(Words(q.expanded) - literal, m) then None
    else Some(Score(q, m))
  }

  lemma OverlapSplits(literal: set<string>, all: set<string>, words: set<string>)
    requires literal <= all
    ensures all * words != {} <==> literal * words != {} || (all - literal) * words != {}
  {
    if w :| w in all * words {
      assert w in literal * words || w in (all - literal) * words;
    }
    if w :| w in literal * words {
      assert w in all * words;
    }
    if w :| w in (all - literal) * words {
      assert w in all * words;
    }
  }

  lemma HitsSplit(literal: set<string>, all: set<string>, m: Memory)
    requires literal <= all
    ensures Hits(all, m) <==> Hits(literal, m) || Hits(all - literal, m)
  {
    OverlapSplits(literal, all, Words(m.content));
    OverlapSplits(literal, all, Words(m.projectWords));
    OverlapSplits(literal, all, Words(m.kindWords));
  }

  /** A memory matches exactly when it shares a token with the expanded query, and then scores. */
  lemma MatchesExactly(q: Query, m: Memory)
    requires q.literal <= q.expanded
    ensures MatchScore(q, m).Some? <==> q.literal != [] && Hits(Words(q.expanded), m)
    ensures MatchScore(q, m).Some? ==> MatchScore(q, m).value > 0
  {
    HitsSplit(Words(q.literal), Words(q.expanded), m);
  }

  // ----- ordering --------------------------------------------------------------------------------

  datatype Key = Key(scope: int, score: int, recency: string, id: string)

  /** `a` ranks strictly before `b`: larger scope, score, recency, identifier, in that order. */
  predicate Before(a: Key, b: Key) {
    || a.scope > b.scope
    || (a.scope == b.scope && a.score > b.score)
    || (a.scope == b.scope && a.score == b.score && TextLess(b.recency, a.recency))
    || (a.scope == b.scope && a.score == b.score && a.recency == b.recency && TextLess(b.id, a.id))
  }

  lemma BeforeIsTotal(a: Key, b: Key, c: Key)
    ensures Before(a, b) || Before(b, a) || a == b
    ensures !(Before(a, b) && Before(b, a))
    ensures Before(a, b) && Before(b, c) ==> Before(a, c)
  {
    TextTrichotomy(a.recency, b.recency);
    TextTrichotomy(a.id, b.id);
    if TextLess(c.recency, b.recency) && TextLess(b.recency, a.recency) {
      TextLessTransitive(c.recency, b.recency, a.recency);
    }
    if TextLess(c.id, b.id) && TextLess(b.id, a.id) {
      TextLessTransitive(c.id, b.id, a.id);
    }
  }

  /** How a list is ordered: by a key that ends in the identifier. */
  type Keys = Memory -> Key

  ghost predicate Sorted(ms: seq<Memory>, key: Keys) {
    forall i, j :: 0 <= i < j < |ms| ==> Before(key(ms[i]), key(ms[j]))
  }

  /** Different memories have different keys. */
  ghost predicate KeyedApart(ms: seq<Memory>, key: Keys) {
    forall i, j :: 0 <= i < j < |ms| ==> key(ms[i]) != key(ms[j])
  }

  /** Puts `m` before the first memory it ranks before. */
  function Insert(ms: seq<Memory>, m: Memory, key: Keys): seq<Memory> {
    if ms == [] then [m]
    else if Before(key(m), key(ms[0])) then [m] + ms
    else [ms[0]] + Insert(ms[1..], m, key)
  }

  function Sort(ms: seq<Memory>, key: Keys): seq<Memory> {
    if ms == [] then [] else Insert(Sort(ms[..|ms| - 1], key), ms[|ms| - 1], key)
  }

  lemma {:induction false} InsertPermutes(ms: seq<Memory>, m: Memory, key: Keys)
    ensures multiset(Insert(ms, m, key)) == multiset(ms) + multiset{m}
  {
    if ms != [] {
      assert ms == [ms[0]] + ms[1..];
      InsertPermutes(ms[1..], m, key);
    }
  }

  lemma {:induction false} SortPermutes(ms: seq<Memory>, key: Keys)
    ensures multiset(Sort(ms, key)) == multiset(ms)
  {
    if ms != [] {
      var front, last := ms[..|ms| - 1], ms[|ms| - 1];
      assert ms == front + [last];
      SortPermutes(front, key);
      InsertPermutes(Sort(front, key), last, key);
    }
  }

  lemma MemberByMultiset(a: seq<Memory>, b: seq<Memory>, m: Memory)
    requires multiset(a) == multiset(b)
    ensures m in a <==> m in b
  {
    assert m in a <==> m in multiset(a);
    assert m in b <==> m in multiset(b);
  }

  lemma {:induction false} InsertSorts(ms: seq<Memory>, m: Memory, key: Keys)
    requires Sorted(ms, key) && forall x :: x in ms ==> key(x) != key(m)
    ensures Sorted(Insert(ms, m, key), key)
  {
    if ms != [] {
      var head, tail := ms[0], ms[1..];
      BeforeIsTotal(key(m), key(head), key(head));
      if Before(key(m), key(head)) {
        forall x | x in ms
          ensures Before(key(m), key(x))
        {
          BeforeIsTotal(key(m), key(head), key(x));
        }
        HeadSorts(m, ms, key);
      } else {
        InsertSorts(tail, m, key);
        InsertPermutes(tail, m, key);
        forall x | x in Insert(tail, m, key)
          ensures Before(key(head), key(x))
        {
          assert x in multiset(Insert(tail, m, key));
          assert head in ms;
        }
        HeadSorts(head, Insert(tail, m, key), key);
      }
    }
  }

  lemma HeadSorts(head: Memory, tail: seq<Memory>, key: Keys)
    requires Sorted(tail, key) && forall x :: x in tail ==> Before(key(head), key(x))
    ensures Sorted([head] + tail, key)
  {
  }

  lemma {:induction false} SortSorts(ms: seq<Memory>, key: Keys)
    requires KeyedApart(ms, key)
    ensures Sorted(Sort(ms, key), key)
  {
    if ms != [] {
      var front, last := ms[..|ms| - 1], ms[|ms| - 1];
      SortSorts(front, key);
      SortPermutes(front, key);
      forall x | x in Sort(front, key)
        ensures key(x) != key(last)
      {
        MemberByMultiset(Sort(front, key), front, x);
        var i :| 0 <= i < |front| && front[i] == x;
        assert ms[i] == x;
      }
      InsertSorts(Sort(front, key), last, key);
    }
  }

  /** There is only one sorted order. */
  lemma {:induction false} SortedUnique(a: seq<Memory>, b: seq<Memory>, key: Keys)
    requires Sorted(a, key) && Sorted(b, key) && multiset(a) == multiset(b)
    ensures a == b
    decreases |a|
  {
    assert |a| == |multiset(a)| == |multiset(b)| == |b|;
    if a != [] {
      MemberByMultiset(a, b, a[0]);
      MemberByMultiset(a, b, b[0]);
      assert a[0] in a && b[0] in b;
      FirstIsFirst(a, b[0], key);
      FirstIsFirst(b, a[0], key);
      BeforeIsTotal(key(a[0]), key(b[0]), key(a[0]));
      assert a == [a[0]] + a[1..] && b == [b[0]] + b[1..];
      assert multiset(a[1..]) == multiset(a) - multiset{a[0]};
      assert multiset(b[1..]) == multiset(b) - multiset{b[0]};
      SortedUnique(a[1..], b[1..], key);
    }
  }

  lemma FirstIsFirst(a: seq<Memory>, m: Memory, key: Keys)
    requires Sorted(a, key) && m in a
    ensures m == a[0] || Before(key(a[0]), key(m))
  {
    var i :| 0 <= i < |a| && a[i] == m;
  }

  // ----- the ranking ------------------------------------------------------------------------------

  function Select(ms: seq<Memory>, keep: Memory -> bool): seq<Memory> {
    if ms == [] then []
    else Select(ms[..|ms| - 1], keep) + (if keep(ms[|ms| - 1]) then [ms[|ms| - 1]] else [])
  }

  function Matching(q: Query): Memory -> bool {
    m => MatchScore(q, m).Some?
  }

  function MatchKeys(q: Query): Keys {
    m => Key(ScopeRank(q, m), if MatchScore(q, m).Some? then MatchScore(q, m).value else 0, m.recency, m.id)
  }

  /** Fallback respects scope: with a project in view, only its own memories and those of no project. */
  predicate Allowed(q: Query, m: Memory) {
    q.project.Some? && m.project.Some? ==> q.fold(m.project.value) == q.fold(q.project.value)
  }

  function FallingBack(q: Query): Memory -> bool {
    m => Allowed(q, m) && MatchScore(q, m).None?
  }

  function FallbackKeys(q: Query): Keys {
    m => Key(ScopeRank(q, m), 0, m.recency, m.id)
  }

  /** Matches by rank, then the allowed rest by rank. */
  function Ranking(ms: seq<Memory>, q: Query, fallback: bool): seq<Memory> {
    var matches := Sort(Select(ms, Matching(q)), MatchKeys(q));
    if fallback then matches + Sort(Select(ms, FallingBack(q)), FallbackKeys(q))
    else if q.literal == [] then ms
    else matches
  }

  function Limited(ms: seq<Memory>, limit: Option<int>): seq<Memory> {
    if limit.None? then ms
    else if limit.value < 1 then []
    else if limit.value < |ms| then ms[..limit.value] else ms
  }

  method SelectMemories(ms: seq<Memory>, keep: Memory -> bool) returns (kept: seq<Memory>)
    ensures kept == Select(ms, keep)
  {
    kept := [];
    for k := 0 to |ms|
      invariant kept == Select(ms[..k], keep)
    {
      assert ms[..k + 1][..k] == ms[..k];
      if keep(ms[k]) {
        kept := kept + [ms[k]];
      }
    }
    assert ms[..|ms|] == ms;
  }

  predicate DistinctIds(ms: seq<Memory>) {
    forall i, j :: 0 <= i < j < |ms| ==> ms[i].id != ms[j].id
  }

  /** What a ranked list is: every match before every fallback, each part sorted, nothing else and nothing twice. */
  ghost predicate Ranked(ms: seq<Memory>, q: Query, out: seq<Memory>, n: nat) {
    && n <= |out| && DistinctIds(out)
    && (forall m :: m in out[..n] <==> m in ms && MatchScore(q, m).Some?)
    && (forall m :: m in out[n..] <==> m in ms && MatchScore(q, m).None? && Allowed(q, m))
    && Sorted(out[..n], MatchKeys(q)) && Sorted(out[n..], FallbackKeys(q))
  }

  /** Ranks for context: the limited front of a list that holds each match and each allowed memory once. */
  method RankMemories(ms: seq<Memory>, q: Query, fallback: bool, limit: Option<int>)
    returns (out: seq<Memory>, ghost full: seq<Memory>, ghost n: nat)
    requires DistinctIds(ms)
    ensures full == Ranking(ms, q, fallback) && out == Limited(full, limit)
    ensures fallback ==> Ranked(ms, q, full, n)
    ensures !fallback && q.literal != [] ==> Ranked(Select(ms, Matching(q)), q, full, n) && n == |full|
    ensures !fallback && q.literal == [] ==> full == ms
    ensures limit.Some? ==> |out| <= if limit.value < 1 then 0 else limit.value
  {
    var matches := SelectMemories(ms, Matching(q));
    var ranked := Sort(matches, MatchKeys(q));
    n := |ranked|;
    if fallback {
      var rest := SelectMemories(ms, FallingBack(q));
      ranked := ranked + Sort(rest, FallbackKeys(q));
      RankingIsRanked(ms, q);
    } else if q.literal == [] {
      ranked := ms;
    } else {
      MatchesAreRanked(ms, q);
    }
    full := ranked;
    out := Limited(ranked, limit);
  }

  lemma {:induction false} SelectMembers(ms: seq<Memory>, keep: Memory -> bool, m: Memory)
    ensures m in Select(ms, keep) <==> m in ms && keep(m)
  {
    if ms != [] {
      var front, last := ms[..|ms| - 1], ms[|ms| - 1];
      assert ms == front + [last];
      SelectMembers(front, keep, m);
    }
  }

  lemma {:induction false} SelectDistinct(ms: seq<Memory>, keep: Memory -> bool)
    requires DistinctIds(ms)
    ensures DistinctIds(Select(ms, keep))
  {
    if ms != [] {
      var front, last := ms[..|ms| - 1], ms[|ms| - 1];
      SelectDistinct(front, keep);
      forall m | m in Select(front, keep)
        ensures m.id != last.id
      {
        SelectMembers(front, keep, m);
        var i :| 0 <= i < |front| && front[i] == m;
        assert ms[i] == m;
      }
    }
  }

  /** A key that carries the identifier sorts any selection. */
  ghost predicate Identifies(key: Keys) {
    forall m :: key(m).id == m.id
  }

  lemma SortedSelection(ms: seq<Memory>, keep: Memory -> bool, key: Keys)
    requires DistinctIds(ms) && Identifies(key)
    ensures var out := Sort(Select(ms, keep), key);
            && Sorted(out, key) && DistinctIds(out) && multiset(out) == multiset(Select(ms, keep))
            && forall m :: m in out <==> m in ms && keep(m)
  {
    var kept := Select(ms, keep);
    var out := Sort(kept, key);
    SelectDistinct(ms, keep);
    assert KeyedApart(kept, key) by {
      forall i, j | 0 <= i < j < |kept|
        ensures key(kept[i]) != key(kept[j])
      {
        assert key(kept[i]).id == kept[i].id && key(kept[j]).id == kept[j].id;
      }
    }
    SortSorts(kept, key);
    SortPermutes(kept, key);
    forall m
      ensures m in out <==> m in ms && keep(m)
    {
      MemberByMultiset(out, kept, m);
      SelectMembers(ms, keep, m);
    }
    forall i, j | 0 <= i < j < |out|
      ensures out[i].id != out[j].id
    {
      SameIdSameMemory(ms, out[i], out[j]);
      BeforeIsTotal(key(out[i]), key(out[j]), key(out[i]));
    }
  }

  lemma SameIdSameMemory(ms: seq<Memory>, a: Memory, b: Memory)
    requires DistinctIds(ms) && a in ms && b in ms
    ensures a.id == b.id ==> a == b
  {
    var i :| 0 <= i < |ms| && ms[i] == a;
    var j :| 0 <= j < |ms| && ms[j] == b;
  }

  lemma RankingIsRanked(ms: seq<Memory>, q: Query)
    requires DistinctIds(ms)
    ensures Ranked(ms, q, Ranking(ms, q, true), |Sort(Select(ms, Matching(q)), MatchKeys(q))|)
  {
    var first := Sort(Select(ms, Matching(q)), MatchKeys(q));
    var rest := Sort(Select(ms, FallingBack(q)), FallbackKeys(q));
    SortedSelection(ms, Matching(q), MatchKeys(q));
    SortedSelection(ms, FallingBack(q), FallbackKeys(q));
    var out := first + rest;
    assert out[..|first|] == first && out[|first|..] == rest;
    forall i, j | 0 <= i < j < |out|
      ensures out[i].id != out[j].id
    {
      if i < |first| <= j {
        assert first[i] in first && rest[j - |first|] in rest;
        SameIdSameMemory(ms, out[i], out[j]);
      }
    }
  }

  lemma MatchesAreRanked(ms: seq<Memory>, q: Query)
    requires DistinctIds(ms)
    ensures var out := Sort(Select(ms, Matching(q)), MatchKeys(q)); Ranked(Select(ms, Matching(q)), q, out, |out|)
  {
    var out := Sort(Select(ms, Matching(q)), MatchKeys(q));
    SortedSelection(ms, Matching(q), MatchKeys(q));
    assert out[..|out|] == out && out[|out|..] == [];
    forall m
      ensures m in Select(ms, Matching(q)) <==> m in ms && MatchScore(q, m).Some?
    {
      SelectMembers(ms, Matching(q), m);
    }
  }

  lemma {:induction false} SelectByMultiset(ms: seq<Memory>, keep: Memory -> bool, m: Memory)
    ensures multiset(Select(ms, keep))[m] == if keep(m) then multiset(ms)[m] else 0
  {
    if ms != [] {
      var front, last := ms[..|ms| - 1], ms[|ms| - 1];
      assert ms == front + [last];
      SelectByMultiset(front, keep, m);
    }
  }

  lemma SortedSelectionIgnoresOrder(ms: seq<Memory>, ns: seq<Memory>, keep: Memory -> bool, key: Keys)
    requires DistinctIds(ms) && DistinctIds(ns) && multiset(ms) == multiset(ns) && Identifies(key)
    ensures Sort(Select(ms, keep), key) == Sort(Select(ns, keep), key)
  {
    SortedSelection(ms, keep, key);
    SortedSelection(ns, keep, key);
    assert multiset(Select(ms, keep)) == multiset(Select(ns, keep)) by {
      forall m
        ensures multiset(Select(ms, keep))[m] == multiset(Select(ns, keep))[m]
      {
        SelectByMultiset(ms, keep, m);
        SelectByMultiset(ns, keep, m);
      }
    }
    SortedUnique(Sort(Select(ms, keep), key), Sort(Select(ns, keep), key), key);
  }

  /** The ranking depends only on which memories there are, never on the order they are listed in, except for an
      empty search, which keeps that order. */
  lemma RankingIgnoresOrder(ms: seq<Memory>, ns: seq<Memory>, q: Query, fallback: bool)
    requires DistinctIds(ms) && DistinctIds(ns) && multiset(ms) == multiset(ns) && (fallback || q.literal != [])
    ensures Ranking(ms, q, fallback) == Ranking(ns, q, fallback)
  {
    SortedSelectionIgnoresOrder(ms, ns, Matching(q), MatchKeys(q));
    SortedSelectionIgnoresOrder(ms, ns, FallingBack(q), FallbackKeys(q));
  }

  // ----- what comes first ----------------------------------------------------------------------------

  predicate OwnProject(q: Query, m: Memory) {
    q.project.Some? && m.project.Some? && m.project.value != "" && q.fold(m.project.value) == q.fold(q.project.value)
  }

  predicate SameGroup(q: Query, a: Memory, b: Memory) {
    q.project.None? || (OwnProject(q, a) && OwnProject(q, b)) || (a.project.None? && b.project.None?)
  }

  /** Among the matches the query's own project comes first, then memories of no project, then the rest; within one
      of these groups the higher score, then the later time, then the larger identifier. */
  lemma MatchesInOrder(ms: seq<Memory>, q: Query, out: seq<Memory>, n: nat, i: nat, j: nat)
    requires Ranked(ms, q, out, n) && i < j < n
    ensures OwnProject(q, out[j]) ==> OwnProject(q, out[i])
    ensures q.project.Some? && out[j].project.None? ==> OwnProject(q, out[i]) || out[i].project.None?
    ensures SameGroup(q, out[i], out[j]) ==>
              && Score(q, out[i]) >= Score(q, out[j])
              && (Score(q, out[i]) == Score(q, out[j]) ==>
                    && !TextLess(out[i].recency, out[j].recency)
                    && (out[i].recency == out[j].recency ==> TextLess(out[j].id, out[i].id)))
  {
    assert out[..n][i] == out[i] && out[..n][j] == out[j];
    assert out[i] in out[..n] && out[j] in out[..n];
    assert Before(MatchKeys(q)(out[i]), MatchKeys(q)(out[j]));
    TextTrichotomy(out[i].recency, out[j].recency);
  }

  /** The appended memories stay within the scope, the newest first among those of the own project or of none. */
  lemma FallbackInOrder(ms: seq<Memory>, q: Query, out: seq<Memory>, n: nat, i: nat, j: nat)
    requires Ranked(ms, q, out, n) && n <= i < j < |out|
    ensures q.project.Some? ==> out[i].project.None? || q.fold(out[i].project.value) == q.fold(q.project.value)
    ensures OwnProject(q, out[j]) ==> OwnProject(q, out[i])
    ensures SameGroup(q, out[i], out[j]) ==>
              && !TextLess(out[i].recency, out[j].recency)
              && (out[i].recency == out[j].recency ==> TextLess(out[j].id, out[i].id))
  {
    assert out[n..][i - n] == out[i] && out[n..][j - n] == out[j];
    assert out[i] in out[n..] && out[j] in out[n..];
    assert Before(FallbackKeys(q)(out[i]), FallbackKeys(q)(out[j]));
    TextTrichotomy(out[i].recency, out[j].recency);
  }

  lemma {:induction false} SubsetCount(a: set<string>, b: set<string>)
    requires a <= b
    ensures |a| <= |b|
  {
    if x :| x in a {
      SubsetCount(a - {x}, b - {x});
    }
  }

  /** A memory with all the words of another, and the phrase if the other has it, scores at least as high. */
  lemma MoreWordsScoreMore(q: Query, a: Memory, b: Memory)
    requires Words(a.content) <= Words(b.content) && Words(a.projectWords) <= Words(b.projectWords)
    requires Words(a.kindWords) <= Words(b.kindWords)
    requires ContainsSequence(a.content, q.literal) ==> ContainsSequence(b.content, q.literal)
    ensures Score(q, a) <= Score(q, b)
  {
    var literal := Words(q.literal);
    var aliases := Words(q.expanded) - literal;
    SubsetCount(literal * Words(a.content), literal * Words(b.content));
    SubsetCount(literal * Words(a.projectWords), literal * Words(b.projectWords));
    SubsetCount(literal * Words(a.kindWords), literal * Words(b.kindWords));
    SubsetCount(aliases * Words(a.content), aliases * Words(b.content));
    SubsetCount(aliases * Words(a.projectWords), aliases * Words(b.projectWords));
    SubsetCount(aliases * Words(a.kindWords), aliases * Words(b.kindWords));
  }

  lemma OneWordOverlap(w: string, words: set<string>)
    ensures |{w} * words| == if w in words then 1 else 0
  {
    assert {w} * words == if w in words then {w} else {};
  }

  /** What one word is worth: 26 in the content, where it is the whole phrase too, 4 in the project and 2 in the kind;
      an alias is worth 2 in the content and 1 in the project and in the kind. */
  lemma OneWordScore(q: Query, m: Memory, w: string, alias: string)
    requires q.literal == [w] && Words(q.expanded) == {w, alias} && alias != w
    ensures Score(q, m) ==
            (if w in m.content then 26 else 0) + (if w in m.projectWords then 4 else 0)
            + (if w in m.kindWords then 2 else 0) + (if alias in m.content then 2 else 0)
            + (if alias in m.projectWords then 1 else 0) + (if alias in m.kindWords then 1 else 0)
  {
    assert Words(q.literal) == {w} && Words(q.expanded) - {w} == {alias};
    OneWordPhrase(m.content, w);
    OneWordOverlap(w, Words(m.content));
    OneWordOverlap(w, Words(m.projectWords));
    OneWordOverlap(w, Words(m.kindWords));
    OneWordOverlap(alias, Words(m.content));
    OneWordOverlap(alias, Words(m.projectWords));
    OneWordOverlap(alias, Words(m.kindWords));
  }

  lemma OneWordPhrase(words: seq<string>, w: string)
    ensures ContainsSequence(words, [w]) <==> w in words
  {
    if w in words {
      var i :| 0 <= i < |words| && words[i] == w;
      assert StandsAt(words, [w], i);
    }
    if ContainsSequence(words, [w]) {
      var i :| 0 <= i <= |words| && StandsAt(words, [w], i);
      assert words[i..i + 1][0] == w;
    }
  }
}
