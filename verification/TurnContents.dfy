/** What chat turns store: the user's own question and the answer built for it, in the conversation and under the
    project that were asked for, after a history read from that conversation (backend/chat_pipeline.py). */
module TurnContents {
  import opened PyText
  import opened HistoryWindow
  import opened ChatTurns

  predicate HasLoaded(t: Turn) {
    Underway(t) || Stored(t)
  }

  predicate HasBuilt(t: Turn) {
    t.stage.Built? || Stored(t)
  }

  /** Rows `i` and `i + 1` are the turn's question and its answer. */
  ghost predicate Exchanged(messages: seq<Row>, i: nat, r: TurnId, t: Turn) {
    && i + 1 < |messages|
    && messages[i] == Row(t.conversation, User, t.question, Provider(r), t.built.askedAt)
    && messages[i + 1] == Row(t.conversation, Assistant, t.built.answer, Provider(r), t.built.answeredAt)
  }

  ghost predicate HasExchange(messages: seq<Row>, r: TurnId, t: Turn) {
    exists i :: Exchanged(messages, i, r, t)
  }

  /** The turn works in the conversation it named, or in a new one, and under the project it named, if any. */
  ghost predicate ProjectOk(n: Names, db: Tables, t: Turn) {
    && (t.target.Some? ==>
          && t.conversation == t.target.value && t.conversation in db.conversations
          && db.conversations[t.conversation] == t.canonical
          && (t.project.Some? ==> n.fold(OrEmpty(t.canonical)) == n.fold(t.project.value)))
    && (t.target.None? ==>
          && (t.project.None? ==> t.canonical == None)
          && (t.project.Some? ==> t.canonical.Some? && n.canonical(t.project.value) == t.canonical))
    && (Stored(t) ==> t.conversation in db.conversations && db.conversations[t.conversation] == t.canonical)
  }

  /** The history is what the query may answer on the conversation as it was at load time. */
  ghost predicate HistoryAt(messages: seq<Row>, c: string, history: seq<Row>, picks: seq<int>) {
    var rows := RowsOf(messages, c);
    Newest(TimesOf(rows), HISTORY_LIMIT, picks) && history == Picked(rows, HISTORY_LIMIT, picks)
  }

  ghost predicate HistoryOk(messages: seq<Row>, t: Turn) {
    && t.loadedAt <= |messages|
    && (t.target.None? ==> t.history == [])
    && (t.target.Some? ==> exists picks :: HistoryAt(messages[..t.loadedAt], t.target.value, t.history, picks))
  }

  ghost predicate TurnKept(n: Names, db: Tables, r: TurnId, t: Turn) {
    && (HasLoaded(t) ==> ProjectOk(n, db, t) && HistoryOk(db.messages, t))
    && (HasBuilt(t) ==> t.built.question == t.question)
    && (Stored(t) ==> HasExchange(db.messages, r, t))
  }

  ghost predicate Kept(n: Names, s: System) {
    forall r :: r in s.turns ==> TurnKept(n, s.db, r, s.turns[r])
  }

  /** Messages are only added and conversations keep their project. */
  ghost predicate Grows(a: Tables, b: Tables) {
    && a.messages <= b.messages
    && forall c :: c in a.conversations ==> c in b.conversations && b.conversations[c] == a.conversations[c]
  }

  lemma NextGrows(n: Names, s: System, e: Step)
    requires Enabled(n, s, e)
    ensures Grows(s.db, Next(n, s, e).db)
  {
  }

  lemma KeptLater(n: Names, a: Tables, b: Tables, r: TurnId, t: Turn)
    requires TurnKept(n, a, r, t) && Grows(a, b)
    ensures TurnKept(n, b, r, t)
  {
    if HasLoaded(t) {
      assert b.messages[..t.loadedAt] == a.messages[..t.loadedAt];
    }
    if Stored(t) {
      var i :| Exchanged(a.messages, i, r, t);
      assert Exchanged(b.messages, i, r, t);
    }
  }

  lemma LoadKept(n: Names, s: System, e: Step)
    requires Kept(n, s) && Enabled(n, s, e) && e.Load?
    ensures TurnKept(n, s.db, e.r, Next(n, s, e).turns[e.r])
  {
    var t := Next(n, s, e).turns[e.r];
    assert s.db.messages[..t.loadedAt] == s.db.messages;
    if t.target.Some? {
      assert HistoryAt(s.db.messages[..t.loadedAt], t.target.value, t.history, e.picks);
    }
  }

  lemma CommitKept(n: Names, s: System, e: Step)
    requires Kept(n, s) && Enabled(n, s, e) && e.Commit?
    ensures TurnKept(n, Next(n, s, e).db, e.r, Next(n, s, e).turns[e.r])
  {
    var u := Next(n, s, e);
    var t := u.turns[e.r];
    assert TurnKept(n, s.db, e.r, s.turns[e.r]);
    assert u.db.messages[..t.loadedAt] == s.db.messages[..t.loadedAt];
    assert Exchanged(u.db.messages, |s.db.messages|, e.r, t);
  }

  lemma ExchangeStays(messages: seq<Row>, r: TurnId, t: Turn, stage: Stage)
    requires HasExchange(messages, r, t)
    ensures HasExchange(messages, r, t.(stage := stage))
  {
    var i :| Exchanged(messages, i, r, t);
    assert Exchanged(messages, i, r, t.(stage := stage));
  }

  lemma OwnStepKept(n: Names, s: System, e: Step, r: TurnId)
    requires Kept(n, s) && Enabled(n, s, e) && r in Next(n, s, e).turns && !e.Load? && !e.Commit? && !e.Restart?
    requires !e.RunCommand? && !e.Open? && e.r == r
    ensures TurnKept(n, Next(n, s, e).db, r, Next(n, s, e).turns[r])
  {
    if r in s.turns {
      assert TurnKept(n, s.db, r, s.turns[r]);
      if e.Leave? {
        ExchangeStays(s.db.messages, r, s.turns[r], Left(true));
      }
    }
  }

  lemma NextKept(n: Names, s: System, e: Step)
    requires Kept(n, s) && Enabled(n, s, e)
    ensures Kept(n, Next(n, s, e))
  {
    var u := Next(n, s, e);
    NextGrows(n, s, e);
    forall r | r in u.turns
      ensures TurnKept(n, u.db, r, u.turns[r])
    {
      if r in s.turns {
        KeptLater(n, s.db, u.db, r, s.turns[r]);
        if e.Restart? && Stored(s.turns[r]) {
          ExchangeStays(s.db.messages, r, s.turns[r], Left(true));
        }
      }
      if e.Load? && e.r == r {
        LoadKept(n, s, e);
      } else if e.Commit? && e.r == r {
        CommitKept(n, s, e);
      } else if !e.RunCommand? && !e.Open? && !e.Restart? && e.r == r {
        OwnStepKept(n, s, e, r);
      }
    }
  }

  lemma {:induction false} RunKept(n: Names, s: System, es: seq<Step>, u: System)
    requires Kept(n, s) && Reaches(n, s, es, u)
    ensures Kept(n, u)
    decreases |es|
  {
    if es != [] {
      NextKept(n, s, es[0]);
      RunKept(n, Next(n, s, es[0]), es[1..], u);
    }
  }

  // ----- where question and answer come from --------------------------------------------------------

  /** The turn is the one that arrived, and its answer the one that was built for it. */
  ghost predicate TurnFrom(es: seq<Step>, r: TurnId, t: Turn) {
    && Arrive(r, t.target, t.project, t.question) in es
    && (HasBuilt(t) ==> Build(r, t.built.answer, t.built.askedAt, t.built.answeredAt) in es)
  }

  ghost predicate From(es: seq<Step>, s: System) {
    forall r :: r in s.turns ==> TurnFrom(es, r, s.turns[r])
  }

  lemma NextFrom(n: Names, done: seq<Step>, s: System, e: Step)
    requires From(done, s) && Enabled(n, s, e)
    ensures From(done + [e], Next(n, s, e))
  {
    var u := Next(n, s, e);
    forall r | r in u.turns
      ensures TurnFrom(done + [e], r, u.turns[r])
    {
      if r in s.turns {
        assert TurnFrom(done, r, s.turns[r]);
      }
    }
  }

  lemma {:induction false} RunFrom(n: Names, done: seq<Step>, s: System, es: seq<Step>, u: System)
    requires From(done, s) && Reaches(n, s, es, u)
    ensures From(done + es, u)
    decreases |es|
  {
    if es == [] {
      assert done + es == done;
    } else {
      NextFrom(n, done, s, es[0]);
      RunFrom(n, done + [es[0]], Next(n, s, es[0]), es[1..], u);
      assert done + [es[0]] + es[1..] == done + es;
    }
  }

  // ----- what is on record ----------------------------------------------------------------------------

  /** On every reachable system a saved turn has stored exactly one exchange: the question it arrived with, said by
      the user, and the answer built for it, said by the assistant, next to each other in its conversation. */
  lemma SavedTurnIsOnRecord(n: Names, es: seq<Step>, s: System, r: TurnId) returns (i: nat)
    requires Reaches(n, EMPTY, es, s) && r in s.turns && Stored(s.turns[r])
    ensures Exchanged(s.db.messages, i, r, s.turns[r]) && RowsBy(s.db.messages, r) == 2
    ensures Arrive(r, s.turns[r].target, s.turns[r].project, s.turns[r].question) in es
    ensures Build(r, s.turns[r].built.answer, s.turns[r].built.askedAt, s.turns[r].built.answeredAt) in es
  {
    RunKept(n, EMPTY, es, s);
    RunFrom(n, [], EMPTY, es, s);
    assert [] + es == es;
    FailedTurnsLeaveNothing(n, es, s, r);
    assert TurnKept(n, s.db, r, s.turns[r]) && TurnFrom(es, r, s.turns[r]);
    i :| Exchanged(s.db.messages, i, r, s.turns[r]);
  }

  /** A turn that has loaded works in the conversation it named, whose project agrees with the one it named, or in a
      new conversation under the stored spelling of its project; its history is the newest of that conversation. */
  lemma TurnsStayInTheirProject(n: Names, es: seq<Step>, s: System, r: TurnId)
    requires Reaches(n, EMPTY, es, s) && r in s.turns && HasLoaded(s.turns[r])
    ensures ProjectOk(n, s.db, s.turns[r]) && HistoryOk(s.db.messages, s.turns[r])
  {
    RunKept(n, EMPTY, es, s);
    assert TurnKept(n, s.db, r, s.turns[r]);
  }

  /** A command stores its own exchange in the conversation it names, or in a new one under its project. */
  lemma CommandStores(n: Names, s: System, target: Option<string>, project: Option<string>, id: string, x: Exchange)
    requires Enabled(n, s, RunCommand(target, project, id, x))
    ensures var u := Next(n, s, RunCommand(target, project, id, x));
            var c := if target.Some? then target.value else id;
            && u.turns == s.turns && u.locks == s.locks && c in u.db.conversations
            && u.db.messages == s.db.messages + [Row(c, User, x.question, Command, x.askedAt),
                                                 Row(c, Assistant, x.answer, Command, x.answeredAt)]
            && (target.None? && project.Some? ==> u.db.conversations[c] == n.canonical(project.value))
            && (target.None? && project.None? ==> u.db.conversations[c] == None)
            && (target.Some? ==> u.db.conversations == s.db.conversations)
            && (target.Some? && project.Some? ==> n.fold(OrEmpty(s.db.conversations[c])) == n.fold(project.value))
  {
  }
}
