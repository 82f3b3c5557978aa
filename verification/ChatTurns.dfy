/** Provider-backed chat turns: the per-conversation lock around history load, generation and
    commit, interleaved with deterministic commands that write without it
    (backend/chat_pipeline.py, backend/chat_memory.py, backend/chat_task.py). */
module ChatTurns {
  import opened PyText
  import opened HistoryWindow

  type TurnId = nat

  datatype Role = User | Assistant

  datatype Author = Provider(turn: TurnId) | Command

  datatype Row = Row(conversation: string, role: Role, content: string, author: Author, createdAt: int)

  /** Conversations with their project, and all messages in insertion order. */
  datatype Tables = Tables(conversations: map<string, Option<string>>, messages: seq<Row>)

  /** Folding of project names, and the canonical spelling of a known project. */
  datatype Names = Names(fold: string -> string, canonical: string -> Option<string>)

  datatype TurnError = ConversationNotFound | ProjectMismatch | ProjectNotFound | StorageFailed

  // ----- the tables ---------------------------------------------------------------------

  function RowsOf(messages: seq<Row>, c: string): seq<Row> {
    if messages == [] then []
    else
      var last := messages[|messages| - 1];
      RowsOf(messages[..|messages| - 1], c) + (if last.conversation == c then [last] else [])
  }

  function TimesOf(rows: seq<Row>): (times: seq<int>)
    ensures |times| == |rows|
  {
    seq(|rows|, i requires 0 <= i < |rows| => rows[i].createdAt)
  }

  /** The rows at the positions a history query may answer with. */
  function Picked(rows: seq<Row>, limit: nat, picks: seq<int>): seq<Row>
    requires Newest(TimesOf(rows), limit, picks)
  {
    seq(|picks|, i requires 0 <= i < |picks| => rows[picks[i]])
  }

  function OrEmpty(text: Option<string>): string {
    if text.Some? then text.value else ""
  }

  /** Which conversation a request resolves to, or why it is refused. */
  function Resolve(n: Names, db: Tables, target: Option<string>,
                   project: Option<string>): Result<Option<string>, TurnError> {
    match target
    case Some(c) =>
      if c !in db.conversations then Err(ConversationNotFound)
      else if project.Some? && n.fold(OrEmpty(db.conversations[c])) != n.fold(project.value) then Err(ProjectMismatch)
      else Ok(db.conversations[c])
    case None =>
      if project.Some? && n.canonical(project.value).None? then Err(ProjectNotFound)
      else Ok(if project.None? then None else n.canonical(project.value))
  }

  /** A complete user and assistant pair. */
  datatype Exchange = Exchange(question: string, answer: string, askedAt: int, answeredAt: int)

  function Pair(c: string, author: Author, x: Exchange): seq<Row> {
    [Row(c, User, x.question, author, x.askedAt), Row(c, Assistant, x.answer, author, x.answeredAt)]
  }

  /** The commit stores the pair and, for a new conversation, its row; it is refused when an existing
      conversation is missing or a new id is taken. */
  predicate CanCommit(db: Tables, c: string, isNew: bool) {
    (c in db.conversations) == !isNew
  }

  function Committed(db: Tables, c: string, isNew: bool, project: Option<string>, author: Author, x: Exchange): Tables {
    Tables(if isNew then db.conversations[c := project] else db.conversations, db.messages + Pair(c, author, x))
  }

  /** The database behind both kinds of turn. */
  class Database {
    var conversations: map<string, Option<string>>
    var messages: seq<Row>

    function Value(): Tables
      reads this
    {
      Tables(conversations, messages)
    }

    constructor ()
      ensures Value() == Tables(map[], [])
    {
      conversations, messages := map[], [];
    }

    /** Loads an existing conversation or drafts a new one, without writing. */
    method PrepareChatTurn(n: Names, target: Option<string>, project: Option<string>, limit: nat, picks: seq<int>)
      returns (r: Result<Option<string>, TurnError>, history: seq<Row>)
      requires target.Some? ==> Newest(TimesOf(RowsOf(Value().messages, target.value)), limit, picks)
      ensures r == Resolve(n, Value(), target, project)
      ensures history == if r.Ok? && target.Some? then Picked(RowsOf(Value().messages, target.value), limit,
                                                              picks) else []
    {
      history := [];
      match target
      case Some(c) =>
        if c !in conversations {
          return Err(ConversationNotFound), [];
        }
        if project.Some? {
          var existing := if conversations[c].Some? then conversations[c].value else "";
          if n.fold(existing) != n.fold(project.value) {
            return Err(ProjectMismatch), [];
          }
        }
        history := Picked(RowsOf(messages, c), limit, picks);
        r := Ok(conversations[c]);
      case None =>
        if project.None? {
          return Ok(None), [];
        }
        var canonical := n.canonical(project.value);
        r := if canonical.None? then Err(ProjectNotFound) else Ok(canonical);
    }

    /** One immediate transaction: everything is stored, or an error leaves the tables alone. */
    method CommitChatTurn(c: string, isNew: bool, project: Option<string>, author: Author, x: Exchange)
      returns (r: Result<(), TurnError>)
      modifies this
      ensures r.Ok? <==> CanCommit(old(Value()), c, isNew)
      ensures Value() == if r.Ok? then Committed(old(Value()), c, isNew, project, author, x) else old(Value())
      ensures r.Ok? ==>
                && |messages| == |old(messages)| + 2 && old(messages) <= messages
                && messages[|old(messages)|] == Row(c, User, x.question, author, x.askedAt)
                && messages[|old(messages)| + 1] == Row(c, Assistant, x.answer, author, x.answeredAt)
                && conversations == if isNew then old(conversations)[c := project] else old(conversations)
    {
      if isNew {
        if c in conversations {
          return Err(StorageFailed);
        }
        conversations := conversations[c := project];
      } else if c !in conversations {
        return Err(ConversationNotFound);
      }
      messages := messages + [Row(c, User, x.question, author, x.askedAt)];
      messages := messages + [Row(c, Assistant, x.answer, author, x.answeredAt)];
      assert messages == old(messages) + Pair(c, author, x);
      r := Ok(());
    }
  }

  // ----- turns, locks and steps --------------------------------------------------------------

  datatype Stage = Waiting | Holding | Loaded | Built | Saved | Left(saved: bool)

  /** A provider turn: what it asked for and what it has loaded and built so far. */
  datatype Turn = Turn(
    target: Option<string>, project: Option<string>, question: string, stage: Stage,
    conversation: string, canonical: Option<string>, loadedAt: nat, history: seq<Row>, built: Exchange)

  predicate Active(t: Turn) {
    !t.stage.Waiting? && !t.stage.Left?
  }

  /** Between the history load and the commit. */
  predicate Underway(t: Turn) {
    t.stage.Loaded? || t.stage.Built?
  }

  predicate Stored(t: Turn) {
    t.stage.Saved? || t.stage == Left(true)
  }

  predicate IsNew(t: Turn) {
    t.target.None?
  }

  /** Locks are created on first use; a lock is free or held by a turn. */
  datatype System = System(db: Tables, locks: map<string, Option<TurnId>>, turns: map<TurnId, Turn>)

  datatype Step =
    | Arrive(r: TurnId, target: Option<string>, project: Option<string>, question: string)
    | Acquire(r: TurnId)
    | Load(r: TurnId, id: string, picks: seq<int>)
    | Build(r: TurnId, answer: string, askedAt: int, answeredAt: int)
    | Commit(r: TurnId)
    | Fail(r: TurnId)
    | Leave(r: TurnId)
    | RunCommand(target: Option<string>, project: Option<string>, id: string, x: Exchange)
    | Open(id: string, project: Option<string>)
    | Restart

  const HISTORY_LIMIT := 20

  const NO_EXCHANGE := Exchange("", "", 0, 0)

  const EMPTY := System(Tables(map[], []), map[], map[])

  predicate Fresh(s: System, id: string) {
    id !in s.db.conversations && forall r :: r in s.turns ==> s.turns[r].conversation != id
  }

  /** When a step can happen. A command and a new turn draw an unused identifier. */
  predicate Enabled(n: Names, s: System, e: Step) {
    match e
    case Arrive(r, _, _, _) => r !in s.turns
    case Acquire(r) =>
      && r in s.turns && s.turns[r].stage == Waiting
      && (s.turns[r].target.Some? && s.turns[r].target.value in s.locks ==> s.locks[s.turns[r].target.value].None?)
    case Load(r, id, picks) =>
      && r in s.turns && s.turns[r].stage == Holding
      && var t := s.turns[r];
         && Resolve(n, s.db, t.target, t.project).Ok?
         && (if t.target.Some? then Newest(TimesOf(RowsOf(s.db.messages, t.target.value)), HISTORY_LIMIT,
                                           picks) else Fresh(s, id))
    case Build(r, _, _, _) => r in s.turns && s.turns[r].stage == Loaded
    case Commit(r) => r in s.turns && s.turns[r].stage == Built && CanCommit(s.db, s.turns[r].conversation,
                                                                             IsNew(s.turns[r]))
    case Fail(r) => r in s.turns && Active(s.turns[r]) && !s.turns[r].stage.Saved?
    case Leave(r) => r in s.turns && s.turns[r].stage == Saved
    case RunCommand(target, project, id, _) =>
      Resolve(n, s.db, target, project).Ok? && (target.None? ==> Fresh(s, id))
    case Open(id, _) => Fresh(s, id)
    case Restart => true
  }

  function Freed(locks: map<string, Option<TurnId>>, t: Turn): map<string, Option<TurnId>> {
    if t.target.Some? then locks[t.target.value := None] else locks
  }

  function Killed(t: Turn): Turn {
    t.(stage := Left(Stored(t)))
  }

  /** Loading takes the history of an existing conversation, or drafts a new one. */
  function LoadedTurn(n: Names, s: System, t: Turn, id: string, picks: seq<int>): Turn
    requires Resolve(n, s.db, t.target, t.project).Ok?
    requires t.target.Some? ==> Newest(TimesOf(RowsOf(s.db.messages, t.target.value)), HISTORY_LIMIT, picks)
  {
    t.(stage := Loaded, loadedAt := |s.db.messages|, canonical := Resolve(n, s.db, t.target, t.project).value,
       conversation := if t.target.Some? then t.target.value else id,
       history := if t.target.Some? then Picked(RowsOf(s.db.messages, t.target.value), HISTORY_LIMIT, picks) else [])
  }

  function Next(n: Names, s: System, e: Step): System
    requires Enabled(n, s, e)
  {
    match e
    case Arrive(r, target, project, question) =>
      s.(turns := s.turns[r := Turn(target, project, question, Waiting, "", None, 0, [], NO_EXCHANGE)])
    case Acquire(r) =>
      var t := s.turns[r];
      s.(turns := s.turns[r := t.(stage := Holding)],
         locks := if t.target.Some? then s.locks[t.target.value := Some(r)] else s.locks)
    case Load(r, id, picks) => s.(turns := s.turns[r := LoadedTurn(n, s, s.turns[r], id, picks)])
    case Build(r, answer, askedAt, answeredAt) =>
      var t := s.turns[r];
      s.(turns := s.turns[r := t.(stage := Built, built := Exchange(t.question, answer, askedAt, answeredAt))])
    case Commit(r) =>
      var t := s.turns[r];
      s.(turns := s.turns[r := t.(stage := Saved)],
         db := Committed(s.db, t.conversation, IsNew(t), t.canonical, Provider(r), t.built))
    case Fail(r) =>
      var t := s.turns[r];
      s.(turns := s.turns[r := t.(stage := Left(false))], locks := Freed(s.locks, t))
    case Leave(r) =>
      var t := s.turns[r];
      s.(turns := s.turns[r := t.(stage := Left(true))], locks := Freed(s.locks, t))
    case RunCommand(target, project, id, x) =>
      s.(db := Committed(s.db, if target.Some? then target.value else id, target.None?,
                         Resolve(n, s.db, target, project).value, Command, x))
    case Open(id, project) => s.(db := s.db.(conversations := s.db.conversations[id := project]))
    case Restart => System(s.db, map[], map r | r in s.turns :: Killed(s.turns[r]))
  }

  // ----- the invariant ---------------------------------------------------------------------------

  /** Messages come in adjacent user and assistant pairs of one conversation and one author. */
  predicate Paired(messages: seq<Row>) {
    if messages == [] then true
    else
      && |messages| >= 2 && Paired(messages[..|messages| - 2])
      && var u, a := messages[|messages| - 2], messages[|messages| - 1];
         u.role == User && a.role == Assistant && u.conversation == a.conversation && u.author == a.author
  }

  function RowsBy(messages: seq<Row>, r: TurnId): nat {
    if messages == [] then 0
    else RowsBy(messages[..|messages| - 1], r) + (if messages[|messages| - 1].author == Provider(r) then 1 else 0)
  }

  /** Since `from`, only commands have written to conversation `c`. */
  ghost predicate Undisturbed(messages: seq<Row>, from: nat, c: string) {
    forall i :: from <= i < |messages| && messages[i].conversation == c ==> messages[i].author == Command
  }

  ghost predicate TurnOk(s: System, r: TurnId)
    requires r in s.turns
  {
    var t := s.turns[r];
    && (Active(t) && t.target.Some? ==> t.target.value in s.locks && s.locks[t.target.value] == Some(r))
    && (Underway(t) ==>
          && t.loadedAt <= |s.db.messages| && Undisturbed(s.db.messages, t.loadedAt, t.conversation)
          && (t.conversation in s.db.conversations <==> !IsNew(t))
          && (!IsNew(t) ==> t.target == Some(t.conversation)))
  }

  ghost predicate LockOk(s: System, c: string)
    requires c in s.locks
  {
    s.locks[c].Some? ==>
      var r := s.locks[c].value; r in s.turns && Active(s.turns[r]) && s.turns[r].target == Some(c)
  }

  ghost predicate Wrote(s: System, r: TurnId) {
    RowsBy(s.db.messages, r) == if r in s.turns && Stored(s.turns[r]) then 2 else 0
  }

  /** Two drafts never share an identifier. */
  ghost predicate Separate(s: System, a: TurnId, b: TurnId)
    requires a in s.turns && b in s.turns
  {
    a != b && Underway(s.turns[a]) && Underway(s.turns[b]) ==> s.turns[a].conversation != s.turns[b].conversation
  }

  ghost predicate Inv(s: System) {
    && Paired(s.db.messages)
    && (forall r :: r in s.turns ==> TurnOk(s, r))
    && (forall c :: c in s.locks ==> LockOk(s, c))
    && (forall r :: Wrote(s, r))
    && (forall a, b :: a in s.turns && b in s.turns ==> Separate(s, a, b))
  }

  lemma RowsByPush(messages: seq<Row>, row: Row, r: TurnId)
    ensures RowsBy(messages + [row], r) == RowsBy(messages, r) + if row.author == Provider(r) then 1 else 0
  {
    assert (messages + [row])[..|messages|] == messages;
  }

  lemma PairAppends(messages: seq<Row>, c: string, author: Author, x: Exchange)
    requires Paired(messages)
    ensures Paired(messages + Pair(c, author, x))
    ensures forall r :: RowsBy(messages + Pair(c, author, x), r) == RowsBy(messages,
                                                                           r) + if author == Provider(r) then 2 else 0
  {
    var u, a := Pair(c, author, x)[0], Pair(c, author, x)[1];
    var all := messages + Pair(c, author, x);
    assert all[..|messages|] == messages;
    assert all == (messages + [u]) + [a];
    forall r
      ensures RowsBy(all, r) == RowsBy(messages, r) + if author == Provider(r) then 2 else 0
    {
      RowsByPush(messages, u, r);
      RowsByPush(messages + [u], a, r);
    }
  }

  lemma PairUndisturbed(messages: seq<Row>, from: nat, c: string, d: string, author: Author, x: Exchange)
    requires Undisturbed(messages, from, c) && (author == Command || d != c)
    ensures Undisturbed(messages + Pair(d, author, x), from, c)
  {
  }

  function WithTurn(s: System, r: TurnId, t: Turn, locks: map<string, Option<TurnId>>): System {
    s.(turns := s.turns[r := t], locks := locks)
  }

  /** Turn `r` keeps its target, its conversation and what it has stored. */
  ghost predicate SameTurn(s: System, r: TurnId, t: Turn) {
    && (r in s.turns ==> t.target == s.turns[r].target && Stored(t) == Stored(s.turns[r]))
    && (r !in s.turns ==> !Stored(t))
    && (Underway(t) ==> r in s.turns && Underway(s.turns[r]) && t.conversation == s.turns[r].conversation)
  }

  /** Only the lock of `target` may change, and not while another active turn aims at it. */
  ghost predicate OwnLock(s: System, r: TurnId, target: Option<string>, locks: map<string, Option<TurnId>>) {
    && s.locks.Keys <= locks.Keys
    && (forall c :: c in locks && target != Some(c) ==> c in s.locks && locks[c] == s.locks[c])
    && (locks != s.locks ==> forall q :: q in s.turns && q != r && Active(s.turns[q]) ==>
             s.turns[q].target.None? || s.turns[q].target != target)
  }

  /** A step that touches only turn `r` and its lock. */
  lemma OneTurnKeepsInv(s: System, r: TurnId, t: Turn, locks: map<string, Option<TurnId>>)
    requires Inv(s) && SameTurn(s, r, t) && OwnLock(s, r, t.target, locks)
    requires TurnOk(WithTurn(s, r, t, locks), r)
    requires t.target.Some? && t.target.value in locks ==> LockOk(WithTurn(s, r, t, locks), t.target.value)
    ensures Inv(WithTurn(s, r, t, locks))
  {
    var u := s.(turns := s.turns[r := t], locks := locks);
    forall q | q in u.turns
      ensures TurnOk(u, q)
    {
      if q != r {
        assert TurnOk(s, q);
      }
    }
    forall c | c in u.locks
      ensures LockOk(u, c)
    {
      if t.target != Some(c) {
        assert LockOk(s, c);
      }
    }
    forall q
      ensures Wrote(u, q)
    {
      assert Wrote(s, q);
    }
    forall a, b | a in u.turns && b in u.turns
      ensures Separate(u, a, b)
    {
      if a in s.turns && b in s.turns {
        assert Separate(s, a, b);
      }
    }
  }

  lemma ArriveKeepsInv(n: Names, s: System, e: Step)
    requires Inv(s) && Enabled(n, s, e) && (e.Arrive? || e.Build?)
    ensures Inv(Next(n, s, e))
  {
    var t := Next(n, s, e).turns[e.r];
    if e.Build? {
      assert TurnOk(s, e.r);
    }
    if t.target.Some? && t.target.value in s.locks {
      assert LockOk(s, t.target.value);
    }
    OneTurnKeepsInv(s, e.r, t, s.locks);
  }

  lemma LockStepKeepsInv(n: Names, s: System, e: Step)
    requires Inv(s) && Enabled(n, s, e) && (e.Acquire? || e.Fail? || e.Leave?)
    ensures Inv(Next(n, s, e))
  {
    var u := Next(n, s, e);
    var t := s.turns[e.r];
    assert TurnOk(s, e.r);
    forall q | q in s.turns && q != e.r && Active(s.turns[q]) && t.target.Some?
      ensures s.turns[q].target != t.target
    {
      assert TurnOk(s, q);
    }
    OneTurnKeepsInv(s, e.r, u.turns[e.r], u.locks);
  }

  lemma LoadKeepsInv(n: Names, s: System, e: Step)
    requires Inv(s) && Enabled(n, s, e) && e.Load?
    ensures Inv(Next(n, s, e))
  {
    var u, t := Next(n, s, e), s.turns[e.r];
    assert TurnOk(s, e.r);
    forall r | r in u.turns
      ensures TurnOk(u, r)
    {
      assert TurnOk(s, r);
    }
    forall c | c in u.locks
      ensures LockOk(u, c)
    {
      assert LockOk(s, c);
    }
    forall r
      ensures Wrote(u, r)
    {
      assert Wrote(s, r);
    }
    forall a, b | a in u.turns && b in u.turns
      ensures Separate(u, a, b)
    {
      assert Separate(s, a, b) && TurnOk(s, a) && TurnOk(s, b);
    }
  }

  lemma CommitKeepsInv(n: Names, s: System, e: Step)
    requires Inv(s) && Enabled(n, s, e) && e.Commit?
    ensures Inv(Next(n, s, e))
  {
    var u, t := Next(n, s, e), s.turns[e.r];
    PairAppends(s.db.messages, t.conversation, Provider(e.r), t.built);
    assert TurnOk(s, e.r);
    forall r | r in u.turns
      ensures TurnOk(u, r)
    {
      assert TurnOk(s, r) && Separate(s, r, e.r);
      if r != e.r && Underway(s.turns[r]) {
        PairUndisturbed(s.db.messages, s.turns[r].loadedAt, s.turns[r].conversation, t.conversation, Provider(e.r),
                        t.built);
      }
    }
    forall c | c in u.locks
      ensures LockOk(u, c)
    {
      assert LockOk(s, c);
    }
    forall r
      ensures Wrote(u, r)
    {
      assert Wrote(s, r);
    }
    forall a, b | a in u.turns && b in u.turns
      ensures Separate(u, a, b)
    {
      assert Separate(s, a, b);
    }
  }

  /** A command writes under the invariant whatever turn is under way. */
  lemma CommandTurnOk(s: System, c: string, isNew: bool, project: Option<string>, x: Exchange, r: TurnId)
    requires r in s.turns && TurnOk(s, r) && (isNew ==> Fresh(s, c))
    ensures TurnOk(s.(db := Committed(s.db, c, isNew, project, Command, x)), r)
  {
    var t := s.turns[r];
    if Underway(t) {
      PairUndisturbed(s.db.messages, t.loadedAt, t.conversation, c, Command, x);
    }
  }

  lemma CommandKeepsInv(s: System, c: string, isNew: bool, project: Option<string>, x: Exchange)
    requires Inv(s) && (isNew ==> Fresh(s, c))
    ensures Inv(s.(db := Committed(s.db, c, isNew, project, Command, x)))
  {
    var u := s.(db := Committed(s.db, c, isNew, project, Command, x));
    PairAppends(s.db.messages, c, Command, x);
    forall r | r in u.turns
      ensures TurnOk(u, r)
    {
      CommandTurnOk(s, c, isNew, project, x, r);
    }
    forall k | k in u.locks
      ensures LockOk(u, k)
    {
      assert LockOk(s, k);
    }
    forall r
      ensures Wrote(u, r)
    {
      assert Wrote(s, r);
    }
    forall a, b | a in u.turns && b in u.turns
      ensures Separate(u, a, b)
    {
      assert Separate(s, a, b);
    }
  }

  lemma OpenKeepsInv(n: Names, s: System, e: Step)
    requires Inv(s) && Enabled(n, s, e) && e.Open?
    ensures Inv(Next(n, s, e))
  {
    var u := Next(n, s, e);
    forall r | r in u.turns
      ensures TurnOk(u, r)
    {
      assert TurnOk(s, r);
    }
    forall c | c in u.locks
      ensures LockOk(u, c)
    {
      assert LockOk(s, c);
    }
    forall r
      ensures Wrote(u, r)
    {
      assert Wrote(s, r);
    }
    forall a, b | a in u.turns && b in u.turns
      ensures Separate(u, a, b)
    {
      assert Separate(s, a, b);
    }
  }

  lemma RestartKeepsInv(n: Names, s: System)
    requires Inv(s)
    ensures Inv(Next(n, s, Restart))
  {
    var u := Next(n, s, Restart);
    forall r
      ensures Wrote(u, r)
    {
      assert Wrote(s, r);
    }
  }

  lemma NextKeepsInv(n: Names, s: System, e: Step)
    requires Inv(s) && Enabled(n, s, e)
    ensures Inv(Next(n, s, e))
  {
    match e
    case Load(_, _, _) => LoadKeepsInv(n, s, e);
    case Commit(_) => CommitKeepsInv(n, s, e);
    case RunCommand(target, project, id, x) =>
      CommandKeepsInv(s, if target.Some? then target.value else id, target.None?,
                      Resolve(n, s.db, target, project).value, x);
    case Open(_, _) => OpenKeepsInv(n, s, e);
    case Restart => RestartKeepsInv(n, s);
    case Arrive(_, _, _, _) => ArriveKeepsInv(n, s, e);
    case Build(_, _, _, _) => ArriveKeepsInv(n, s, e);
    case _ => LockStepKeepsInv(n, s, e);
  }

  ghost predicate Reaches(n: Names, s: System, es: seq<Step>, u: System)
    decreases |es|
  {
    if es == [] then s == u
    else Enabled(n, s, es[0]) && Reaches(n, Next(n, s, es[0]), es[1..], u)
  }

  lemma {:induction false} RunKeepsInv(n: Names, s: System, es: seq<Step>, u: System)
    requires Inv(s) && Reaches(n, s, es, u)
    ensures Inv(u)
    decreases |es|
  {
    if es != [] {
      NextKeepsInv(n, s, es[0]);
      RunKeepsInv(n, Next(n, s, es[0]), es[1..], u);
    }
  }

  lemma ReachableInv(n: Names, es: seq<Step>, s: System)
    requires Reaches(n, EMPTY, es, s)
    ensures Inv(s)
  {
    assert Inv(EMPTY);
    RunKeepsInv(n, EMPTY, es, s);
  }

  // ----- what every reachable system promises ------------------------------------------------------

  /** From its history load to its commit, no other provider turn writes to a turn's conversation,
      and an existing conversation is still there when the commit looks for it. */
  lemma HistoryStaysCurrent(n: Names, es: seq<Step>, s: System, r: TurnId)
    requires Reaches(n, EMPTY, es, s) && r in s.turns && Underway(s.turns[r])
    ensures var t := s.turns[r];
            && t.loadedAt <= |s.db.messages| && Undisturbed(s.db.messages, t.loadedAt, t.conversation)
            && CanCommit(s.db, t.conversation, IsNew(t))
  {
    ReachableInv(n, es, s);
    assert TurnOk(s, r);
  }

  /** Two turns on one conversation are never both between load and commit. */
  lemma TurnsExclude(n: Names, es: seq<Step>, s: System, a: TurnId, b: TurnId)
    requires Reaches(n, EMPTY, es, s) && a in s.turns && b in s.turns && a != b
    requires Underway(s.turns[a]) && Underway(s.turns[b])
    ensures s.turns[a].conversation != s.turns[b].conversation
  {
    ReachableInv(n, es, s);
    assert Separate(s, a, b);
  }

  /** A turn that did not save has written nothing, one that saved has written one pair, and a turn
      that is over holds no lock. */
  lemma FailedTurnsLeaveNothing(n: Names, es: seq<Step>, s: System, r: TurnId)
    requires Reaches(n, EMPTY, es, s) && r in s.turns
    ensures RowsBy(s.db.messages, r) == if Stored(s.turns[r]) then 2 else 0
    ensures s.turns[r].stage.Left? ==> forall c :: c in s.locks ==> s.locks[c] != Some(r)
  {
    ReachableInv(n, es, s);
    assert Wrote(s, r);
    forall c | c in s.locks
      ensures s.turns[r].stage.Left? ==> s.locks[c] != Some(r)
    {
      assert LockOk(s, c);
    }
  }

  // ----- the history window -----------------------------------------------------------------------------

  predicate Alternates(rows: seq<Row>) {
    |rows| % 2 == 0 && forall i :: 0 <= i < |rows| ==> rows[i].role == if i % 2 == 0 then User else Assistant
  }

  lemma RowsOfPush(messages: seq<Row>, row: Row, c: string)
    ensures RowsOf(messages + [row], c) == RowsOf(messages, c) + if row.conversation == c then [row] else []
  {
    assert (messages + [row])[..|messages|] == messages;
  }

  lemma AlternatesPush(rows: seq<Row>, u: Row, a: Row)
    requires Alternates(rows) && u.role == User && a.role == Assistant
    ensures Alternates(rows + [u] + [a])
  {
  }

  lemma {:induction false} RowsAlternate(messages: seq<Row>, c: string)
    requires Paired(messages)
    ensures Alternates(RowsOf(messages, c))
  {
    if messages != [] {
      var k := |messages| - 2;
      var front, u, a := messages[..k], messages[k], messages[k + 1];
      RowsAlternate(front, c);
      assert messages == front + [u] + [a];
      RowsOfPush(front, u, c);
      RowsOfPush(front + [u], a, c);
      AlternatesPush(RowsOf(front, c), u, a);
      assert RowsOf(front, c) + [] + [] == RowsOf(front, c);
    }
  }

  function LastRows(rows: seq<Row>, limit: nat): seq<Row> {
    if limit < |rows| then rows[|rows| - limit..] else rows
  }

  lemma LastRowsAlternate(rows: seq<Row>, limit: nat)
    requires Alternates(rows) && limit % 2 == 0
    ensures Alternates(LastRows(rows, limit))
  {
  }

  /** In insertion order, every window of even size starts with a user message and ends with an answer. */
  lemma WindowStartsWithUser(n: Names, es: seq<Step>, s: System, c: string, limit: nat)
    requires Reaches(n, EMPTY, es, s) && limit % 2 == 0
    ensures Alternates(RowsOf(s.db.messages, c)) && Alternates(LastRows(RowsOf(s.db.messages, c), limit))
  {
    ReachableInv(n, es, s);
    RowsAlternate(s.db.messages, c);
    LastRowsAlternate(RowsOf(s.db.messages, c), limit);
  }

  /** Every history a turn may load is the last messages of the conversation in insertion order, if and only if
      the last twenty have strictly increasing times later than all earlier ones; it then starts with a user
      message. */
  lemma OrderedHistory(n: Names, es: seq<Step>, s: System, c: string)
    requires Reaches(n, EMPTY, es, s)
    ensures var rows := RowsOf(s.db.messages, c);
            AlwaysLast(TimesOf(rows), HISTORY_LIMIT) <==> Settled(TimesOf(rows), HISTORY_LIMIT)
    ensures var rows := RowsOf(s.db.messages, c);
            Settled(TimesOf(rows), HISTORY_LIMIT) ==>
              forall picks :: Newest(TimesOf(rows), HISTORY_LIMIT, picks) ==>
                && Picked(rows, HISTORY_LIMIT, picks) == LastRows(rows, HISTORY_LIMIT)
                && Alternates(Picked(rows, HISTORY_LIMIT, picks))
  {
    var rows := RowsOf(s.db.messages, c);
    LastExactlyWhenSettled(TimesOf(rows), HISTORY_LIMIT);
    WindowStartsWithUser(n, es, s, c, HISTORY_LIMIT);
    forall picks | Settled(TimesOf(rows), HISTORY_LIMIT) && Newest(TimesOf(rows), HISTORY_LIMIT, picks)
      ensures Picked(rows, HISTORY_LIMIT, picks) == LastRows(rows, HISTORY_LIMIT)
    {
      assert LastPositions(TimesOf(rows), picks);
    }
  }

  /** Whatever the history query does with equal times, the history is empty or starts with a user message. */
  ghost predicate StartsWithUser(rows: seq<Row>, limit: nat) {
    forall picks :: Newest(TimesOf(rows), limit, picks) && Picked(rows, limit, picks) != [] ==>
      Picked(rows, limit, picks)[0].role == User
  }

  /** Every history a turn may load starts with a user message if and only if each message with fewer than the
      window's number of newer ones, and at least that many no older, comes from the user. */
  lemma StartsWithUserExactly(rows: seq<Row>, limit: nat)
    ensures StartsWithUser(rows, limit) <==>
              forall k: nat :: k < |rows| && MayLead(TimesOf(rows), limit, k) ==> rows[k].role == User
  {
    var times := TimesOf(rows);
    if StartsWithUser(rows, limit) {
      forall k: nat | k < |rows| && MayLead(times, limit, k)
        ensures rows[k].role == User
      {
        LeadsExactly(times, limit, k);
        var picks :| Newest(times, limit, picks) && picks != [] && picks[0] == k;
        assert Picked(rows, limit, picks)[0] == rows[k];
      }
    } else {
      var picks :| Newest(times, limit, picks) && Picked(rows, limit, picks) != []
                   && Picked(rows, limit, picks)[0].role != User;
      var k := picks[0];
      LeadsExactly(times, limit, k);
      assert MayLead(times, limit, k) && rows[k].role != User;
    }
  }

  // ----- where creation times and insertion order disagree ------------------------------------------------

  lemma {:induction false} ReachesAppend(n: Names, s: System, es: seq<Step>, t: System, fs: seq<Step>, u: System)
    requires Reaches(n, s, es, t) && Reaches(n, t, fs, u)
    ensures Reaches(n, s, es + fs, u)
    decreases |es|
  {
    if es == [] {
      assert es + fs == fs;
    } else {
      ReachesAppend(n, Next(n, s, es[0]), es[1..], t, fs, u);
      assert (es + fs)[0] == es[0] && (es + fs)[1..] == es[1..] + fs;
    }
  }

  lemma ReachesOne(n: Names, s: System, es: seq<Step>, t: System, e: Step)
    requires Reaches(n, s, es, t) && Enabled(n, t, e)
    ensures Reaches(n, s, es + [e], Next(n, t, e))
  {
    var u := Next(n, t, e);
    assert [e][1..] == [] && Reaches(n, u, [], u);
    assert Reaches(n, t, [e], u);
    ReachesAppend(n, s, es, t, [e], u);
  }

  /** A command pair in conversation `c` at time `at`. */
  function At(at: int): Exchange {
    Exchange("", "", at, at + 1)
  }

  function LatePairs(c: string, k: nat): seq<Row> {
    if k == 0 then [] else LatePairs(c, k - 1) + Pair(c, Command, At(18 + 2 * k))
  }

  lemma {:induction false} LatePairsTimes(c: string, k: nat)
    ensures |LatePairs(c, k)| == 2 * k
    ensures forall i :: 0 <= i < 2 * k ==>
              LatePairs(c, k)[i].conversation == c && LatePairs(c, k)[i].createdAt == 20 + i
  {
    if k > 0 {
      LatePairsTimes(c, k - 1);
    }
  }

  lemma {:induction false} LateCommands(n: Names, es: seq<Step>, s: System, c: string, k: nat)
    returns (fs: seq<Step>, u: System)
    requires Reaches(n, EMPTY, es, s) && c in s.db.conversations
    ensures Reaches(n, EMPTY, fs, u) && u.db.messages == s.db.messages + LatePairs(c, k) && c in u.db.conversations
  {
    if k == 0 {
      return es, s;
    }
    var gs, t := LateCommands(n, es, s, c, k - 1);
    var e := RunCommand(Some(c), None, "", At(18 + 2 * k));
    ReachesOne(n, EMPTY, gs, t, e);
    fs, u := gs + [e], Next(n, t, e);
  }

  lemma {:induction false} AllRowsOf(messages: seq<Row>, c: string)
    requires forall i :: 0 <= i < |messages| ==> messages[i].conversation == c
    ensures RowsOf(messages, c) == messages
  {
    if messages != [] {
      AllRowsOf(messages[..|messages| - 1], c);
    }
  }

  /** A first turn on an empty conversation has loaded its history. */
  ghost predicate FirstTurnLoaded(s: System, c: string) {
    && s.db == Tables(map[c := None], []) && 0 in s.turns
    && s.turns[0].stage == Loaded && s.turns[0].target == Some(c) && s.turns[0].conversation == c
    && s.turns[0].question == ""
  }

  lemma LoadFirstTurn(n: Names, c: string) returns (es: seq<Step>, s: System)
    ensures Reaches(n, EMPTY, es, s) && FirstTurnLoaded(s, c)
  {
    var s1 := Next(n, EMPTY, Open(c, None));
    var s2 := Next(n, s1, Arrive(0, Some(c), None, ""));
    var s3 := Next(n, s2, Acquire(0));
    assert Reaches(n, EMPTY, [], EMPTY);
    ReachesOne(n, EMPTY, [], EMPTY, Open(c, None));
    es := [] + [Open(c, None)];
    ReachesOne(n, EMPTY, es, s1, Arrive(0, Some(c), None, ""));
    es := es + [Arrive(0, Some(c), None, "")];
    ReachesOne(n, EMPTY, es, s2, Acquire(0));
    es := es + [Acquire(0)];
    ReachesOne(n, EMPTY, es, s3, Load(0, "", []));
    es, s := es + [Load(0, "", [])], Next(n, s3, Load(0, "", []));
  }

  function Overtaken(c: string): seq<Row> {
    Pair(c, Command, At(11)) + Pair(c, Provider(0), Exchange("", "", 10, 13))
  }

  /** A command lands between the two clock readings of a turn that is about to commit. */
  lemma CommandOvertakesTurn(n: Names, c: string) returns (es: seq<Step>, s: System)
    ensures Reaches(n, EMPTY, es, s) && c in s.db.conversations && s.db.messages == Overtaken(c)
  {
    var fs, s4 := LoadFirstTurn(n, c);
    var build, command := Build(0, "", 10, 13), RunCommand(Some(c), None, "", At(11));
    ReachesOne(n, EMPTY, fs, s4, build);
    var s5 := Next(n, s4, build);
    assert s5.turns[0].built == Exchange("", "", 10, 13) && s5.turns[0].conversation == c;
    ReachesOne(n, EMPTY, fs + [build], s5, command);
    var s6 := Next(n, s5, command);
    assert s6.db.messages == [] + Pair(c, Command, At(11)) == Pair(c, Command, At(11));
    assert s6.turns == s5.turns && s6.db.conversations == s5.db.conversations;
    ReachesOne(n, EMPTY, fs + [build] + [command], s6, Commit(0));
    es, s := fs + [build] + [command] + [Commit(0)], Next(n, s6, Commit(0));
  }

  /** The `n` newest of `n + 2` rows when the first and the third are the oldest. */
  function LatePicks(n: nat): seq<int> {
    seq(n, i requires 0 <= i < n => if i == 0 then 1 else i + 2)
  }

  lemma OvertakenWindow(rows: seq<Row>)
    requires |rows| == 22 && rows[0].createdAt == 11 && rows[1].createdAt == 12 && rows[2].createdAt == 10
    requires rows[3].createdAt == 13
    requires forall i :: 4 <= i < 22 ==> rows[i].createdAt == 16 + i
    ensures Newest(TimesOf(rows), 20, LatePicks(20))
  {
    var picks := LatePicks(20);
    assert picks[0] == 1;
    forall k: int | 3 <= k < 22
      ensures k in picks
    {
      assert picks[k - 2] == k;
    }
  }

  /** Because messages are dated before the commit transaction begins, a reachable conversation's
      twenty newest messages by time may start with an assistant message. */
  lemma WindowByTimeMayStartWithAssistant(n: Names, c: string) returns (es: seq<Step>, s: System)
    ensures Reaches(n, EMPTY, es, s) && Newest(TimesOf(RowsOf(s.db.messages, c)), HISTORY_LIMIT, LatePicks(20))
    ensures RowsOf(s.db.messages, c)[LatePicks(20)[0]].role == Assistant
  {
    var fs, t := CommandOvertakesTurn(n, c);
    es, s := LateCommands(n, fs, t, c, 9);
    LatePairsTimes(c, 9);
    AllRowsOf(s.db.messages, c);
    OvertakenWindow(s.db.messages);
  }
}
