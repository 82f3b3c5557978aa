/** The per-project rollup (backend/project_insight.py): grouped queries merged under the
    database's case-insensitive name matching. */
module Rollup {
  import opened PyText

  // ----- figures --------------------------------------------------------------------------

  /** One rollup entry. Times stand for the ordered timestamp texts. */
  datatype Entry = Entry(activeMemories: nat, openTasks: nat, totalTasks: nat, conversations: nat, last: Option<int>)

  const NONE := Entry(0, 0, 0, 0, None)

  function Newer(current: Option<int>, candidate: Option<int>): Option<int> {
    if candidate.None? then current
    else if current.None? then candidate
    else if current.value >= candidate.value then current else candidate
  }

  function Plus(a: Entry, b: Entry): Entry {
    Entry(a.activeMemories + b.activeMemories, a.openTasks + b.openTasks, a.totalTasks + b.totalTasks,
          a.conversations + b.conversations, Newer(a.last, b.last))
  }

  // ----- records and rows -----------------------------------------------------------------------

  datatype MemoryRecord = MemoryRecord(project: Option<string>, active: bool, createdAt: int, updatedAt: Option<int>)

  datatype TaskRecord = TaskRecord(project: Option<string>, open: bool, createdAt: int, updatedAt: Option<int>)

  datatype ConversationRecord = ConversationRecord(project: Option<string>, createdAt: int, updatedAt: Option<int>)

  /** When a record was last touched. */
  function Touched(createdAt: int, updatedAt: Option<int>): int {
    if updatedAt.Some? then updatedAt.value else createdAt
  }

  /** A record as the queries see it: its project, if any, and what it adds to the figures. */
  datatype Row = Row(project: Option<string>, share: Entry)

  function MemoryRow(r: MemoryRecord): Row {
    Row(r.project, Entry(if r.active then 1 else 0, 0, 0, 0, Some(Touched(r.createdAt, r.updatedAt))))
  }

  function TaskRow(r: TaskRecord): Row {
    Row(r.project, Entry(0, if r.open then 1 else 0, 1, 0, Some(Touched(r.createdAt, r.updatedAt))))
  }

  function ConversationRow(r: ConversationRecord): Row {
    Row(r.project, Entry(0, 0, 0, 1, Some(Touched(r.createdAt, r.updatedAt))))
  }

  function Mapped<T>(records: seq<T>, row: T -> Row): (rows: seq<Row>)
    ensures |rows| == |records| && forall i :: 0 <= i < |rows| ==> rows[i] == row(records[i])
  {
    seq(|records|, i requires 0 <= i < |records| => row(records[i]))
  }

  /** Which project values to look at. */
  type Selector = Option<string> -> bool

  datatype Figure = ActiveMemories | OpenTasks | TotalTasks | Conversations

  function Part(e: Entry, f: Figure): nat {
    match f
    case ActiveMemories => e.activeMemories
    case OpenTasks => e.openTasks
    case TotalTasks => e.totalTasks
    case Conversations => e.conversations
  }

  /** One figure added up over every selected row, one by one. */
  function Sum(rows: seq<Row>, which: Selector, f: Figure): nat {
    if rows == [] then 0
    else
      var last := rows[|rows| - 1];
      Sum(rows[..|rows| - 1], which, f) + if which(last.project) then Part(last.share, f) else 0
  }

  /** The newest time among the selected rows. */
  function Latest(rows: seq<Row>, which: Selector): Option<int> {
    if rows == [] then None
    else
      var last := rows[|rows| - 1];
      Newer(Latest(rows[..|rows| - 1], which), if which(last.project) then last.share.last else None)
  }

  /** The naive count over the selected rows. */
  function Tally(rows: seq<Row>, which: Selector): Entry {
    Entry(Sum(rows, which, ActiveMemories), Sum(rows, which, OpenTasks), Sum(rows, which, TotalTasks),
          Sum(rows, which, Conversations), Latest(rows, which))
  }

  /** Entries are equal when all their figures are. */
  lemma EntryIsFigures(e: Entry, a: Entry)
    requires forall f: Figure :: Part(e, f) == Part(a, f)
    requires e.last == a.last
    ensures e == a
  {
    assert Part(e, ActiveMemories) == Part(a, ActiveMemories) && Part(e, OpenTasks) == Part(a, OpenTasks);
    assert Part(e, TotalTasks) == Part(a, TotalTasks) && Part(e, Conversations) == Part(a, Conversations);
  }

  lemma TallyParts(rows: seq<Row>, which: Selector, f: Figure)
    ensures Part(Tally(rows, which), f) == Sum(rows, which, f) && Tally(rows, which).last == Latest(rows, which)
  {
  }

  lemma PlusParts(a: Entry, b: Entry, f: Figure)
    ensures Part(Plus(a, b), f) == Part(a, f) + Part(b, f) && Plus(a, b).last == Newer(a.last, b.last)
  {
  }

  /** Two selections agree on the rows. */
  ghost predicate Agree(rows: seq<Row>, f: Selector, g: Selector) {
    forall i :: 0 <= i < |rows| ==> AgreeAt(f, g, rows[i].project)
  }

  ghost predicate AgreeAt(f: Selector, g: Selector, p: Option<string>) {
    f(p) == g(p)
  }

  lemma {:induction false} SumAgrees(rows: seq<Row>, f: Selector, g: Selector, x: Figure)
    requires Agree(rows, f, g)
    ensures Sum(rows, f, x) == Sum(rows, g, x)
  {
    if rows != [] {
      assert AgreeAt(f, g, rows[|rows| - 1].project);
      SumAgrees(rows[..|rows| - 1], f, g, x);
    }
  }

  lemma {:induction false} LatestAgrees(rows: seq<Row>, f: Selector, g: Selector)
    requires Agree(rows, f, g)
    ensures Latest(rows, f) == Latest(rows, g)
  {
    if rows != [] {
      assert AgreeAt(f, g, rows[|rows| - 1].project);
      LatestAgrees(rows[..|rows| - 1], f, g);
    }
  }

  lemma TallyAgrees(rows: seq<Row>, f: Selector, g: Selector)
    requires Agree(rows, f, g)
    ensures Tally(rows, f) == Tally(rows, g)
  {
    LatestAgrees(rows, f, g);
    SumAgrees(rows, f, g, ActiveMemories);
    SumAgrees(rows, f, g, OpenTasks);
    SumAgrees(rows, f, g, TotalTasks);
    SumAgrees(rows, f, g, Conversations);
  }

  /** At `p` the whole selects exactly when one of two disjoint selections does. */
  ghost predicate SplitsAt(whole: Selector, f: Selector, g: Selector, p: Option<string>) {
    whole(p) == (f(p) || g(p)) && !(f(p) && g(p))
  }

  ghost predicate Splits(whole: Selector, f: Selector, g: Selector) {
    forall p :: SplitsAt(whole, f, g, p)
  }

  lemma {:induction false} SumSplits(rows: seq<Row>, whole: Selector, f: Selector, g: Selector, x: Figure)
    requires Splits(whole, f, g)
    ensures Sum(rows, whole, x) == Sum(rows, f, x) + Sum(rows, g, x)
  {
    if rows != [] {
      assert SplitsAt(whole, f, g, rows[|rows| - 1].project);
      SumSplits(rows[..|rows| - 1], whole, f, g, x);
    }
  }

  lemma {:induction false} LatestSplits(rows: seq<Row>, whole: Selector, f: Selector, g: Selector)
    requires Splits(whole, f, g)
    ensures Latest(rows, whole) == Newer(Latest(rows, f), Latest(rows, g))
  {
    if rows != [] {
      assert SplitsAt(whole, f, g, rows[|rows| - 1].project);
      LatestSplits(rows[..|rows| - 1], whole, f, g);
    }
  }

  /** Disjoint selections add up. */
  lemma TallySplits(rows: seq<Row>, whole: Selector, f: Selector, g: Selector)
    requires Splits(whole, f, g)
    ensures Tally(rows, whole) == Plus(Tally(rows, f), Tally(rows, g))
  {
    var a, b, c := Tally(rows, whole), Tally(rows, f), Tally(rows, g);
    LatestSplits(rows, whole, f, g);
    forall x: Figure
      ensures Part(a, x) == Part(Plus(b, c), x)
    {
      SumSplits(rows, whole, f, g, x);
      TallyParts(rows, whole, x);
      TallyParts(rows, f, x);
      TallyParts(rows, g, x);
      PlusParts(b, c, x);
    }
    EntryIsFigures(a, Plus(b, c));
  }

  lemma {:induction false} SumAppend(a: seq<Row>, b: seq<Row>, which: Selector, x: Figure)
    ensures Sum(a + b, which, x) == Sum(a, which, x) + Sum(b, which, x)
  {
    if b == [] {
      assert a + b == a;
    } else {
      assert (a + b)[..|a + b| - 1] == a + b[..|b| - 1];
      SumAppend(a, b[..|b| - 1], which, x);
    }
  }

  lemma {:induction false} LatestAppend(a: seq<Row>, b: seq<Row>, which: Selector)
    ensures Latest(a + b, which) == Newer(Latest(a, which), Latest(b, which))
  {
    if b == [] {
      assert a + b == a;
    } else {
      assert (a + b)[..|a + b| - 1] == a + b[..|b| - 1];
      LatestAppend(a, b[..|b| - 1], which);
    }
  }

  lemma TallyAppend(a: seq<Row>, b: seq<Row>, which: Selector)
    ensures Tally(a + b, which) == Plus(Tally(a, which), Tally(b, which))
  {
    var all, x, y := Tally(a + b, which), Tally(a, which), Tally(b, which);
    LatestAppend(a, b, which);
    forall f: Figure
      ensures Part(all, f) == Part(Plus(x, y), f)
    {
      SumAppend(a, b, which, f);
      TallyParts(a + b, which, f);
      TallyParts(a, which, f);
      TallyParts(b, which, f);
      PlusParts(x, y, f);
    }
    EntryIsFigures(all, Plus(x, y));
  }

  lemma SumPush(rows: seq<Row>, row: Row, which: Selector, x: Figure)
    ensures Sum(rows + [row], which, x) == Sum(rows, which, x) + if which(row.project) then Part(row.share, x) else 0
    ensures Latest(rows + [row], which) == Newer(Latest(rows, which),
                                                 if which(row.project) then row.share.last else None)
  {
    assert (rows + [row])[..|rows + [row]| - 1] == rows;
  }

  /** One more row. */
  lemma TallyPush(rows: seq<Row>, row: Row, which: Selector)
    ensures Tally(rows + [row], which) == if which(row.project) then Plus(Tally(rows, which),
                                                                          row.share) else Tally(rows, which)
  {
    SumPush(rows, row, which, ActiveMemories);
    SumPush(rows, row, which, OpenTasks);
    SumPush(rows, row, which, TotalTasks);
    SumPush(rows, row, which, Conversations);
  }

  function Never(): Selector {
    p => false
  }

  lemma {:induction false} NeverSelects(rows: seq<Row>, x: Figure)
    ensures Sum(rows, Never(), x) == 0 && Latest(rows, Never()) == None
  {
    if rows != [] {
      NeverSelects(rows[..|rows| - 1], x);
    }
  }

  lemma NothingSelected(rows: seq<Row>, f: Selector)
    requires Agree(rows, f, Never())
    ensures Tally(rows, f) == NONE
  {
    TallyAgrees(rows, f, Never());
    NeverSelects(rows, ActiveMemories);
    NeverSelects(rows, OpenTasks);
    NeverSelects(rows, TotalTasks);
    NeverSelects(rows, Conversations);
  }

  ghost predicate Chosen(rows: seq<Row>, which: Selector, i: int) {
    0 <= i < |rows| && which(rows[i].project)
  }

  /** The time of a tally is the true maximum over the selected rows. */
  lemma {:induction false} LastIsMaximum(rows: seq<Row>, which: Selector)
    requires forall i :: 0 <= i < |rows| ==> rows[i].share.last.Some?
    ensures Latest(rows, which).None? ==> forall i :: !Chosen(rows, which, i)
    ensures Latest(rows, which).Some? ==>
              && (exists i :: Chosen(rows, which, i) && rows[i].share.last == Latest(rows, which))
              && (forall i :: Chosen(rows, which, i) ==> rows[i].share.last.value <= Latest(rows, which).value)
  {
    if rows != [] {
      var n := |rows| - 1;
      var front := rows[..n];
      LastIsMaximum(front, which);
      assert forall i :: 0 <= i < n ==> Chosen(rows, which, i) == Chosen(front, which, i);
      assert Chosen(rows, which, n) == which(rows[n].project);
      if Latest(rows, which).Some? {
        if Latest(rows, which) == Latest(front, which) {
          var j :| Chosen(front, which, j) && front[j].share.last == Latest(front, which);
          assert Chosen(rows, which, j) && rows[j] == front[j];
        }
      }
    }
  }

  // ----- grouped queries ------------------------------------------------------------------------

  function Exactly(project: Option<string>): Selector {
    p => p == project
  }

  ghost function ProjectsIn(groups: seq<Row>): set<Option<string>> {
    set i | 0 <= i < |groups| :: groups[i].project
  }

  /** The answer of a query that groups rows by project: one group per exact project value, in any
      order, with the figures of its rows. */
  ghost predicate Groups(rows: seq<Row>, groups: seq<Row>) {
    && (forall i, j :: 0 <= i < j < |groups| ==> groups[i].project != groups[j].project)
    && (forall i :: 0 <= i < |groups| ==> groups[i].share == Tally(rows, Exactly(groups[i].project)))
    && (forall i :: 0 <= i < |rows| ==> rows[i].project in ProjectsIn(groups))
  }

  ghost function Both(f: Selector, s: set<Option<string>>): Selector {
    p => f(p) && p in s
  }

  /** Selecting one more project value adds exactly its rows. */
  lemma OneMoreProject(rows: seq<Row>, which: Selector, s: set<Option<string>>, project: Option<string>)
    requires project !in s
    ensures Tally(rows, Both(which, s + {project})) ==
              if which(project) then Plus(Tally(rows, Both(which, s)), Tally(rows, Exactly(project)))
                else Tally(rows, Both(which, s))
  {
    var f, h := Both(which, s + {project}), Both(which, s);
    if which(project) {
      forall p ensures SplitsAt(f, h, Exactly(project), p) {
      }
      TallySplits(rows, f, h, Exactly(project));
    } else {
      TallyAgrees(rows, f, h);
    }
  }

  /** Some groups sum to the rows of their projects. */
  lemma {:induction false} SomeGroupsSum(rows: seq<Row>, groups: seq<Row>, n: nat, which: Selector)
    requires Groups(rows, groups) && n <= |groups|
    ensures Tally(groups[..n], which) == Tally(rows, Both(which, ProjectsIn(groups[..n])))
  {
    if n == 0 {
      assert ProjectsIn(groups[..0]) == {};
      NothingSelected(rows, Both(which, {}));
    } else {
      SomeGroupsSum(rows, groups, n - 1, which);
      GroupJoins(rows, groups[..n - 1], groups[n - 1], which);
      assert groups[..n] == groups[..n - 1] + [groups[n - 1]];
    }
  }

  lemma GroupJoins(rows: seq<Row>, front: seq<Row>, g: Row, which: Selector)
    requires Tally(front, which) == Tally(rows, Both(which, ProjectsIn(front)))
    requires g.project !in ProjectsIn(front) && g.share == Tally(rows, Exactly(g.project))
    ensures Tally(front + [g], which) == Tally(rows, Both(which, ProjectsIn(front + [g])))
  {
    assert ProjectsIn(front + [g]) == ProjectsIn(front) + {g.project} by {
      assert forall i :: 0 <= i < |front| ==> (front + [g])[i] == front[i];
      assert (front + [g])[|front|] == g;
    }
    OneMoreProject(rows, which, ProjectsIn(front), g.project);
    TallyPush(front, g, which);
  }

  /** Adding up groups gives what adding up rows gives, for every selection. */
  lemma GroupsSum(rows: seq<Row>, groups: seq<Row>, which: Selector)
    requires Groups(rows, groups)
    ensures Tally(groups, which) == Tally(rows, which)
  {
    assert groups[..|groups|] == groups;
    SomeGroupsSum(rows, groups, |groups|, which);
    TallyAgrees(rows, Both(which, ProjectsIn(groups)), which);
  }

  // ----- merging ------------------------------------------------------------------------------------

  type Key = Option<string>

  /** Names are matched with ASCII letters folded; rows without a project have their own key. */
  function MergeKey(project: Option<string>): Key {
    if project.None? then None else Some(Fold(project.value))
  }

  function Matches(key: Key): Selector {
    p => MergeKey(p) == key
  }

  type Merged = map<Key, Entry>

  function At(merged: Merged, key: Key): Entry {
    if key in merged then merged[key] else NONE
  }

  /** Every key holds the figures of the rows that fold to it. */
  ghost predicate MergedFrom(merged: Merged, groups: seq<Row>) {
    && (forall key :: At(merged, key) == Tally(groups, Matches(key)))
    && (forall i :: 0 <= i < |groups| ==> MergeKey(groups[i].project) in merged)
  }

  /** One result set folded into the merged entries. */
  method MergeGroups(merged: Merged, ghost before: seq<Row>, groups: seq<Row>) returns (now: Merged)
    requires MergedFrom(merged, before)
    ensures MergedFrom(now, before + groups)
  {
    now := merged;
    assert before + groups[..0] == before;
    for k := 0 to |groups|
      invariant MergedFrom(now, before + groups[..k])
    {
      ghost var done := before + groups[..k];
      assert before + groups[..k + 1] == done + [groups[k]];
      var key := MergeKey(groups[k].project);
      MergeStep(now, done, groups[k]);
      now := now[key := Plus(At(now, key), groups[k].share)];
    }
    assert groups[..|groups|] == groups;
  }

  lemma MergeAt(merged: Merged, done: seq<Row>, g: Row, key: Key)
    requires At(merged, key) == Tally(done, Matches(key))
    ensures At(merged[MergeKey(g.project) := Plus(At(merged, MergeKey(g.project)), g.share)], key) ==
              Tally(done + [g], Matches(key))
  {
    TallyPush(done, g, Matches(key));
  }

  lemma MergeStep(merged: Merged, done: seq<Row>, g: Row)
    requires MergedFrom(merged, done)
    ensures MergedFrom(merged[MergeKey(g.project) := Plus(At(merged, MergeKey(g.project)), g.share)], done + [g])
  {
    forall key
      ensures At(merged[MergeKey(g.project) := Plus(At(merged, MergeKey(g.project)), g.share)],
                 key) == Tally(done + [g], Matches(key))
    {
      MergeAt(merged, done, g, key);
    }
  }

  // ----- the summary --------------------------------------------------------------------------------

  datatype Tables = Tables(
    memories: seq<MemoryRecord>, tasks: seq<TaskRecord>, conversations: seq<ConversationRecord>, projects: seq<string>)

  function MemoryRows(db: Tables): seq<Row> {
    Mapped(db.memories, MemoryRow)
  }

  function TaskRows(db: Tables): seq<Row> {
    Mapped(db.tasks, TaskRow)
  }

  function ConversationRows(db: Tables): seq<Row> {
    Mapped(db.conversations, ConversationRow)
  }

  ghost function AllRows(db: Tables): seq<Row> {
    MemoryRows(db) + TaskRows(db) + ConversationRows(db)
  }

  // The records a figure counts, as sets of positions.

  ghost function ActiveIn(db: Tables, which: Selector): set<int> {
    set i | 0 <= i < |db.memories| && db.memories[i].active && which(db.memories[i].project)
  }

  ghost function OpenIn(db: Tables, which: Selector): set<int> {
    set i | 0 <= i < |db.tasks| && db.tasks[i].open && which(db.tasks[i].project)
  }

  ghost function TasksIn(db: Tables, which: Selector): set<int> {
    set i | 0 <= i < |db.tasks| && which(db.tasks[i].project)
  }

  ghost function ConversationsIn(db: Tables, which: Selector): set<int> {
    set i | 0 <= i < |db.conversations| && which(db.conversations[i].project)
  }

  ghost predicate Selects(rows: seq<Row>, which: Selector, f: Figure, i: int) {
    0 <= i < |rows| && which(rows[i].project) && Part(rows[i].share, f) == 1
  }

  /** A figure made of zeros and ones is the number of rows that contribute a one. */
  lemma {:induction false} SumIsCount(rows: seq<Row>, which: Selector, f: Figure, chosen: set<int>)
    requires forall i :: 0 <= i < |rows| ==> Part(rows[i].share, f) <= 1
    requires forall i :: i in chosen <==> Selects(rows, which, f, i)
    ensures Sum(rows, which, f) == |chosen|
  {
    if rows == [] {
      forall i
        ensures i !in chosen
      {
        assert i in chosen <==> Selects(rows, which, f, i);
      }
      assert chosen == {};
    } else {
      var n := |rows| - 1;
      var front := rows[..n];
      assert forall i :: 0 <= i < n ==> front[i] == rows[i];
      assert n in chosen <==> Selects(rows, which, f, n);
      var rest := chosen - {n};
      forall i
        ensures i in rest <==> Selects(front, which, f, i)
      {
        assert i in chosen <==> Selects(rows, which, f, i);
      }
      SumIsCount(front, which, f, rest);
    }
  }

  /** Rows that add nothing to a figure leave it zero. */
  lemma {:induction false} SumOfNothing(rows: seq<Row>, which: Selector, f: Figure)
    requires forall i :: 0 <= i < |rows| ==> Part(rows[i].share, f) == 0
    ensures Sum(rows, which, f) == 0
  {
    if rows != [] {
      SumOfNothing(rows[..|rows| - 1], which, f);
    }
  }

  lemma AllRowsSum(db: Tables, which: Selector, f: Figure)
    ensures Sum(AllRows(db), which, f) ==
              Sum(MemoryRows(db), which, f) + Sum(TaskRows(db), which, f) + Sum(ConversationRows(db), which, f)
  {
    SumAppend(MemoryRows(db), TaskRows(db), which, f);
    SumAppend(MemoryRows(db) + TaskRows(db), ConversationRows(db), which, f);
  }

  lemma MemoryFigure(db: Tables, which: Selector)
    ensures Sum(AllRows(db), which, ActiveMemories) == |ActiveIn(db, which)|
  {
    var rows := MemoryRows(db);
    AllRowsSum(db, which, ActiveMemories);
    SumOfNothing(TaskRows(db), which, ActiveMemories);
    SumOfNothing(ConversationRows(db), which, ActiveMemories);
    SumIsCount(rows, which, ActiveMemories, ActiveIn(db, which));
  }

  lemma TaskFigures(db: Tables, which: Selector)
    ensures Sum(AllRows(db), which, OpenTasks) == |OpenIn(db, which)|
    ensures Sum(AllRows(db), which, TotalTasks) == |TasksIn(db, which)|
  {
    var rows := TaskRows(db);
    AllRowsSum(db, which, OpenTasks);
    SumOfNothing(MemoryRows(db), which, OpenTasks);
    SumOfNothing(ConversationRows(db), which, OpenTasks);
    SumIsCount(rows, which, OpenTasks, OpenIn(db, which));
    AllRowsSum(db, which, TotalTasks);
    SumOfNothing(MemoryRows(db), which, TotalTasks);
    SumOfNothing(ConversationRows(db), which, TotalTasks);
    SumIsCount(rows, which, TotalTasks, TasksIn(db, which));
  }

  lemma ConversationFigure(db: Tables, which: Selector)
    ensures Sum(AllRows(db), which, Conversations) == |ConversationsIn(db, which)|
  {
    var rows := ConversationRows(db);
    AllRowsSum(db, which, Conversations);
    SumOfNothing(MemoryRows(db), which, Conversations);
    SumOfNothing(TaskRows(db), which, Conversations);
    SumIsCount(rows, which, Conversations, ConversationsIn(db, which));
  }

  /** The time of a record: its last update, or its creation if it was never updated. */
  predicate Dated(createdAt: int, updatedAt: Option<int>, time: int) {
    updatedAt == Some(time) || (updatedAt == None && createdAt == time)
  }

  ghost predicate MemoryTouched(db: Tables, which: Selector, time: int) {
    exists i :: 0 <= i < |db.memories| && which(db.memories[i].project)
                && Dated(db.memories[i].createdAt, db.memories[i].updatedAt, time)
  }

  ghost predicate TaskTouched(db: Tables, which: Selector, time: int) {
    exists i :: 0 <= i < |db.tasks| && which(db.tasks[i].project)
                && Dated(db.tasks[i].createdAt, db.tasks[i].updatedAt, time)
  }

  ghost predicate ConversationTouched(db: Tables, which: Selector, time: int) {
    exists i :: 0 <= i < |db.conversations| && which(db.conversations[i].project)
                && Dated(db.conversations[i].createdAt, db.conversations[i].updatedAt, time)
  }

  /** A time at which some selected record was last touched. */
  ghost predicate TouchedAt(db: Tables, which: Selector, time: int) {
    MemoryTouched(db, which, time) || TaskTouched(db, which, time) || ConversationTouched(db, which, time)
  }

  ghost predicate RowTouched(rows: seq<Row>, which: Selector, time: int) {
    exists i :: Chosen(rows, which, i) && rows[i].share.last == Some(time)
  }

  lemma TouchedAppend(a: seq<Row>, b: seq<Row>, which: Selector, time: int)
    ensures RowTouched(a + b, which, time) <==> RowTouched(a, which, time) || RowTouched(b, which, time)
  {
    if i :| Chosen(a, which, i) && a[i].share.last == Some(time) {
      assert Chosen(a + b, which, i) && (a + b)[i] == a[i];
    }
    if i :| Chosen(b, which, i) && b[i].share.last == Some(time) {
      assert Chosen(a + b, which, |a| + i) && (a + b)[|a| + i] == b[i];
    }
    if i :| Chosen(a + b, which, i) && (a + b)[i].share.last == Some(time) {
      assert if i < |a| then Chosen(a, which, i) else Chosen(b, which, i - |a|);
    }
  }

  lemma MemoryRowsTouched(db: Tables, which: Selector, time: int)
    ensures MemoryTouched(db, which, time) <==> RowTouched(MemoryRows(db), which, time)
  {
    var rows := MemoryRows(db);
    assert forall i :: 0 <= i < |rows| ==> rows[i] == MemoryRow(db.memories[i]);
    if i :| 0 <= i < |db.memories| && which(db.memories[i].project)
            && Dated(db.memories[i].createdAt, db.memories[i].updatedAt, time) {
      assert Chosen(rows, which, i);
    }
  }

  lemma TaskRowsTouched(db: Tables, which: Selector, time: int)
    ensures TaskTouched(db, which, time) <==> RowTouched(TaskRows(db), which, time)
  {
    var rows := TaskRows(db);
    assert forall i :: 0 <= i < |rows| ==> rows[i] == TaskRow(db.tasks[i]);
    if i :| 0 <= i < |db.tasks| && which(db.tasks[i].project)
            && Dated(db.tasks[i].createdAt, db.tasks[i].updatedAt, time) {
      assert Chosen(rows, which, i);
    }
  }

  lemma ConversationRowsTouched(db: Tables, which: Selector, time: int)
    ensures ConversationTouched(db, which, time) <==> RowTouched(ConversationRows(db), which, time)
  {
    var rows := ConversationRows(db);
    assert forall i :: 0 <= i < |rows| ==> rows[i] == ConversationRow(db.conversations[i]);
    if i :| 0 <= i < |db.conversations| && which(db.conversations[i].project)
            && Dated(db.conversations[i].createdAt, db.conversations[i].updatedAt, time) {
      assert Chosen(rows, which, i);
    }
  }

  lemma TouchedRows(db: Tables, which: Selector, time: int)
    ensures TouchedAt(db, which, time) <==> RowTouched(AllRows(db), which, time)
  {
    MemoryRowsTouched(db, which, time);
    TaskRowsTouched(db, which, time);
    ConversationRowsTouched(db, which, time);
    TouchedAppend(MemoryRows(db), TaskRows(db), which, time);
    TouchedAppend(MemoryRows(db) + TaskRows(db), ConversationRows(db), which, time);
  }

  /** `e` holds the numbers of the selected records and the newest time any of them was touched. */
  ghost predicate DirectCount(db: Tables, which: Selector, e: Entry) {
    && e.activeMemories == |ActiveIn(db, which)| && e.openTasks == |OpenIn(db, which)|
    && e.totalTasks == |TasksIn(db, which)| && e.conversations == |ConversationsIn(db, which)|
    && (e.last.None? <==> forall time :: !TouchedAt(db, which, time))
    && (e.last.Some? ==> TouchedAt(db, which, e.last.value) && forall time :: TouchedAt(db, which, time) ==>
             time <= e.last.value)
  }

  lemma LastOfRecords(db: Tables, which: Selector)
    ensures var last := Latest(AllRows(db), which);
            && (last.None? <==> forall time :: !TouchedAt(db, which, time))
            && (last.Some? ==> TouchedAt(db, which, last.value) && forall time :: TouchedAt(db, which, time) ==>
                     time <= last.value)
  {
    var rows := AllRows(db);
    var last := Latest(rows, which);
    assert forall i :: 0 <= i < |rows| ==> rows[i].share.last.Some?;
    LastIsMaximum(rows, which);
    forall time | TouchedAt(db, which, time)
      ensures last.Some? && time <= last.value
    {
      TouchedRows(db, which, time);
      var i :| Chosen(rows, which, i) && rows[i].share.last == Some(time);
    }
    if last.Some? {
      TouchedRows(db, which, last.value);
    }
  }

  /** The tally over the rows is the direct count over the records. */
  lemma TallyIsDirectCount(db: Tables, which: Selector)
    ensures DirectCount(db, which, Tally(AllRows(db), which))
  {
    MemoryFigure(db, which);
    TaskFigures(db, which);
    ConversationFigure(db, which);
    LastOfRecords(db, which);
  }

  /** Project names are unique under the database's case-insensitive matching. */
  ghost predicate NamesUnique(projects: seq<string>) {
    forall i, j :: 0 <= i < j < |projects| ==> Fold(projects[i]) != Fold(projects[j])
  }

  datatype ProjectEntry = ProjectEntry(name: string, figures: Entry)

  datatype Summary = Summary(projects: seq<ProjectEntry>, truncated: bool, unassigned: Option<Entry>)

  const MAX_PROJECT_ENTRIES := 200

  /** The project a caller names, in its stored spelling. */
  function CanonicalName(projects: seq<string>, name: string): Option<string> {
    if projects == [] then None
    else if Fold(projects[0]) == Fold(name) then Some(projects[0])
    else CanonicalName(projects[1..], name)
  }

  predicate Known(projects: seq<string>, key: Key) {
    exists i :: 0 <= i < |projects| && key == Some(Fold(projects[i]))
  }

  ghost function Unknown(projects: seq<string>): Selector {
    p => !Known(projects, MergeKey(p))
  }

  /** Every listed project carries the direct count of the rows that match its name. */
  ghost predicate Counts(rows: seq<Row>, e: ProjectEntry) {
    e.figures == Tally(rows, Matches(Some(Fold(e.name))))
  }

  method MergeTables(db: Tables, memoryGroups: seq<Row>, taskGroups: seq<Row>, conversationGroups: seq<Row>)
    returns (merged: Merged, ghost groups: seq<Row>)
    requires Groups(MemoryRows(db), memoryGroups) && Groups(TaskRows(db), taskGroups)
    requires Groups(ConversationRows(db), conversationGroups)
    ensures MergedFrom(merged, groups)
    ensures forall which :: Tally(groups, which) == Tally(AllRows(db), which)
  {
    merged := MergeGroups(map[], [], memoryGroups);
    merged := MergeGroups(merged, [] + memoryGroups, taskGroups);
    merged := MergeGroups(merged, [] + memoryGroups + taskGroups, conversationGroups);
    groups := [] + memoryGroups + taskGroups + conversationGroups;
    forall which
      ensures Tally(groups, which) == Tally(AllRows(db), which)
    {
      assert [] + memoryGroups == memoryGroups;
      GroupsSum(MemoryRows(db), memoryGroups, which);
      GroupsSum(TaskRows(db), taskGroups, which);
      GroupsSum(ConversationRows(db), conversationGroups, which);
      TallyAppend(memoryGroups, taskGroups, which);
      TallyAppend(memoryGroups + taskGroups, conversationGroups, which);
      TallyAppend(MemoryRows(db), TaskRows(db), which);
      TallyAppend(MemoryRows(db) + TaskRows(db), ConversationRows(db), which);
    }
  }

  method ListProjects(projects: seq<string>, merged: Merged, only: Option<string>, ghost rows: seq<Row>)
    returns (entries: seq<ProjectEntry>)
    requires forall key :: At(merged, key) == Tally(rows, Matches(key))
    ensures forall i :: 0 <= i < |entries| ==> Counts(rows, entries[i])
    ensures only.None? ==> |entries| == |projects| && forall i :: 0 <= i < |entries| ==> entries[i].name == projects[i]
    ensures only.Some? ==> forall i :: 0 <= i < |entries| ==> entries[i].name == only.value
    ensures only.Some? && only.value in projects ==> entries != []
  {
    entries := [];
    for k := 0 to |projects|
      invariant forall i :: 0 <= i < |entries| ==> Counts(rows, entries[i])
      invariant only.None? ==> |entries| == k && forall i :: 0 <= i < |entries| ==> entries[i].name == projects[i]
      invariant only.Some? ==> forall i :: 0 <= i < |entries| ==> entries[i].name == only.value
      invariant only.Some? && only.value in projects[..k] ==> entries != []
    {
      if only.None? || projects[k] == only.value {
        entries := entries + [ProjectEntry(projects[k], At(merged, MergeKey(Some(projects[k]))))];
      }
    }
  }

  /** The keys in `done` that no project is known by. */
  ghost function UnknownIn(projects: seq<string>, done: set<Key>): Selector {
    p => MergeKey(p) in done && !Known(projects, MergeKey(p))
  }

  lemma UnassignedStep(rows: seq<Row>, projects: seq<string>, done: set<Key>, key: Key)
    requires key !in done
    ensures Tally(rows, UnknownIn(projects, done + {key})) ==
              if Known(projects, key) then Tally(rows, UnknownIn(projects, done))
              else Plus(Tally(rows, UnknownIn(projects, done)), Tally(rows, Matches(key)))
  {
    var f, g := UnknownIn(projects, done + {key}), UnknownIn(projects, done);
    if Known(projects, key) {
      TallyAgrees(rows, f, g);
    } else {
      forall p ensures SplitsAt(f, g, Matches(key), p) {
      }
      TallySplits(rows, f, g, Matches(key));
    }
  }

  /** Rows of no known project are added up, never dropped. */
  method SumUnassigned(projects: seq<string>, merged: Merged, ghost groups: seq<Row>) returns (unassigned: Entry)
    requires MergedFrom(merged, groups)
    ensures unassigned == Tally(groups, Unknown(projects))
  {
    unassigned := NONE;
    var keys := merged.Keys;
    assert merged.Keys - keys == {};
    NothingSelected(groups, UnknownIn(projects, {}));
    while keys != {}
      invariant keys <= merged.Keys
      invariant unassigned == Tally(groups, UnknownIn(projects, merged.Keys - keys))
      decreases |keys|
    {
      var key :| key in keys;
      ghost var done := merged.Keys - keys;
      UnassignedStep(groups, projects, done, key);
      assert merged.Keys - (keys - {key}) == done + {key};
      assert At(merged, key) == Tally(groups, Matches(key));
      if !Known(projects, key) {
        unassigned := Plus(unassigned, merged[key]);
      }
      keys := keys - {key};
    }
    TallyAgrees(groups, UnknownIn(projects, merged.Keys - keys), Unknown(projects));
  }

  /** The rollup equals the naive count, whatever order the grouped queries answer in. */
  method SummarizeProjects(db: Tables, memoryGroups: seq<Row>, taskGroups: seq<Row>, conversationGroups: seq<Row>,
                           project: Option<string>)
    returns (r: Option<Summary>)
    requires Groups(MemoryRows(db), memoryGroups) && Groups(TaskRows(db), taskGroups)
    requires Groups(ConversationRows(db), conversationGroups)
    ensures r.None? <==> project.Some? && CanonicalName(db.projects, project.value).None?
    ensures r.Some? ==> forall i :: 0 <= i < |r.value.projects| ==> Counts(AllRows(db), r.value.projects[i])
    ensures r.Some? ==> forall i :: 0 <= i < |r.value.projects| ==>
              DirectCount(db, Matches(Some(Fold(r.value.projects[i].name))), r.value.projects[i].figures)
    ensures r.Some? && project.None? ==>
              r.value.unassigned.Some? && DirectCount(db, Unknown(db.projects), r.value.unassigned.value)
    ensures r.Some? && project.None? ==>
              && |r.value.projects| ==
                   (if |db.projects| > MAX_PROJECT_ENTRIES then MAX_PROJECT_ENTRIES else |db.projects|)
              && (forall i :: 0 <= i < |r.value.projects| ==> r.value.projects[i].name == db.projects[i])
              && r.value.truncated == (|db.projects| > MAX_PROJECT_ENTRIES)
              && r.value.unassigned == Some(Tally(AllRows(db), Unknown(db.projects)))
    ensures r.Some? && project.Some? ==> r.value.unassigned.None? && r.value.projects != []
    ensures r.Some? && project.Some? ==> forall i :: 0 <= i < |r.value.projects| ==>
              Fold(r.value.projects[i].name) == Fold(project.value)
  {
    var only: Option<string> := None;
    if project.Some? {
      only := CanonicalName(db.projects, project.value);
      if only.None? {
        return None;
      }
      CanonicalFound(db.projects, project.value);
    }
    var merged, groups := MergeTables(db, memoryGroups, taskGroups, conversationGroups);
    forall key
      ensures At(merged, key) == Tally(AllRows(db), Matches(key))
    {
      assert At(merged, key) == Tally(groups, Matches(key));
    }
    var entries := ListProjects(db.projects, merged, only, AllRows(db));
    EntriesAreDirectCounts(db, entries);
    TallyIsDirectCount(db, Unknown(db.projects));
    var truncated := |entries| > MAX_PROJECT_ENTRIES;
    if truncated {
      entries := entries[..MAX_PROJECT_ENTRIES];
    }
    if only.Some? {
      return Some(Summary(entries, truncated, None));
    }
    var unassigned := SumUnassigned(db.projects, merged, groups);
    r := Some(Summary(entries, truncated, Some(unassigned)));
  }

  lemma EntriesAreDirectCounts(db: Tables, entries: seq<ProjectEntry>)
    requires forall i :: 0 <= i < |entries| ==> Counts(AllRows(db), entries[i])
    ensures forall i :: 0 <= i < |entries| ==> DirectCount(db, Matches(Some(Fold(entries[i].name))), entries[i].figures)
  {
    forall i | 0 <= i < |entries|
      ensures DirectCount(db, Matches(Some(Fold(entries[i].name))), entries[i].figures)
    {
      TallyIsDirectCount(db, Matches(Some(Fold(entries[i].name))));
    }
  }

  lemma {:induction false} CanonicalFound(projects: seq<string>, name: string)
    requires CanonicalName(projects, name).Some?
    ensures CanonicalName(projects, name).value in projects && Fold(CanonicalName(projects, name).value) == Fold(name)
  {
    if Fold(projects[0]) != Fold(name) {
      CanonicalFound(projects[1..], name);
    }
  }

  // ----- conservation ---------------------------------------------------------------------------------

  function SumOf(entries: seq<ProjectEntry>): Entry {
    if entries == [] then NONE else Plus(SumOf(entries[..|entries| - 1]), entries[|entries| - 1].figures)
  }

  ghost function KnownAs(projects: seq<string>): Selector {
    p => Known(projects, MergeKey(p))
  }

  lemma {:induction false} ListedSum(rows: seq<Row>, entries: seq<ProjectEntry>, projects: seq<string>)
    requires |entries| == |projects| && NamesUnique(projects)
    requires forall i :: 0 <= i < |entries| ==> entries[i].name == projects[i] && Counts(rows, entries[i])
    ensures SumOf(entries) == Tally(rows, KnownAs(projects))
  {
    if entries == [] {
      NothingSelected(rows, KnownAs(projects));
    } else {
      var n := |projects| - 1;
      var front, key := projects[..n], Some(Fold(projects[n]));
      ListedSum(rows, entries[..n], front);
      forall p ensures SplitsAt(KnownAs(projects), KnownAs(front), Matches(key), p) {
        KnownLast(projects, MergeKey(p));
      }
      TallySplits(rows, KnownAs(projects), KnownAs(front), Matches(key));
    }
  }

  lemma KnownLast(projects: seq<string>, k: Key)
    requires projects != []
    ensures var n := |projects| - 1; Known(projects, k) <==> Known(projects[..n], k) || k == Some(Fold(projects[n]))
  {
    var n := |projects| - 1;
    if i :| 0 <= i < |projects| && k == Some(Fold(projects[i])) {
      if i < n {
        assert projects[..n][i] == projects[i];
      }
    }
  }

  /** In a complete unscoped summary the listed entries and `unassigned` add up to the whole tables. */
  lemma SummaryConserves(db: Tables, r: Summary)
    requires NamesUnique(db.projects) && |r.projects| == |db.projects|
    requires r.unassigned == Some(Tally(AllRows(db), Unknown(db.projects)))
    requires forall i :: 0 <= i < |r.projects| ==>
               r.projects[i].name == db.projects[i] && Counts(AllRows(db), r.projects[i])
    ensures Plus(SumOf(r.projects), r.unassigned.value) == Tally(AllRows(db), p => true)
  {
    ListedSum(AllRows(db), r.projects, db.projects);
    var everything: Selector := p => true;
    forall p ensures SplitsAt(everything, KnownAs(db.projects), Unknown(db.projects), p) {
    }
    TallySplits(AllRows(db), everything, KnownAs(db.projects), Unknown(db.projects));
    TallyAgrees(AllRows(db), everything, p => true);
  }
}
