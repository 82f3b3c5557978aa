/** What the memory commands do to the rows they name and to all others, one by one and over whole runs
    (backend/memory.py, backend/chat_memory.py, backend/bootstrap_profile.py). */
module MemoryLifecycle {
  import opened PyText
  import opened MemoryStore

  /** Everything about a memory that no command may change. */
  ghost predicate SameMemory(a: Memory, b: Memory) {
    && b.id == a.id && b.content == a.content && b.project == a.project && b.kind == a.kind
    && b.createdAt == a.createdAt && b.replacesId == a.replacesId
  }

  ghost predicate SameExcept(t: Table, u: Table, ids: set<Id>) {
    forall x :: x !in ids ==> (x in u <==> x in t) && (x in t ==> u[x] == t[x])
  }

  // ----- one command ---------------------------------------------------------------------------

  /** Archiving hides exactly an active row; everything else about it and every other row stays. */
  lemma ArchiveEffect(env: Env, t: Table, target: Id, now: int)
    requires WellFormed(t)
    ensures var u := Apply(env, t, Archive(target, now));
            if target in t && t[target].status == Active then
              && target in u && u[target].status == Archived && u[target].updatedAt == now
              && u[target].supersededById == None && SameMemory(t[target], u[target]) && SameExcept(t, u, {target})
            else u == t
  {
  }

  /** Restoring brings back exactly an archived row. */
  lemma RestoreEffect(env: Env, t: Table, target: Id, now: int)
    requires WellFormed(t)
    ensures var u := Apply(env, t, Restore(target, now));
            if target in t && t[target].status == Archived then
              && target in u && u[target].status == Active && u[target].updatedAt == now
              && u[target].supersededById == None && SameMemory(t[target], u[target]) && SameExcept(t, u, {target})
            else u == t
  {
  }

  /** Archive then restore gives the row back, but for its time of update. */
  lemma RestoreUndoesArchive(env: Env, t: Table, target: Id, now: int, later: int)
    requires WellFormed(t) && target in t && t[target].status == Active
    ensures Apply(env, Apply(env, t, Archive(target, now)), Restore(target, later)) ==
            t[target := t[target].(updatedAt := later)]
  {
    ArchiveEffect(env, t, target, now);
  }

  /** An archived row can only be restored. */
  lemma ArchivedIsRefused(env: Env, t: Table, target: Id, content: string, id: Id, now: int)
    requires target in t && t[target].status == Archived && FreshId(t, id)
    ensures Apply(env, t, Archive(target, now)) == t && Apply(env, t, Delete(target)) == t
    ensures Apply(env, t, Correct(target, content, id, now)) == t
  {
  }

  /** A correction is taken exactly when its stripped text is not empty and differs from that of an active row. It
      adds one active row with that text, and supersedes the old one. */
  lemma CorrectEffect(env: Env, t: Table, target: Id, content: string, id: Id, now: int)
    requires WellFormed(t) && FreshId(t, id)
    ensures var u := Apply(env, t, Correct(target, content, id, now));
            if Strip(content) != "" && target in t && t[target].status == Active && Strip(content) != t[target].content
            then
              && id in u && u[id].id == id && u[id].content == Strip(content) && u[id].status == Active
              && u[id].project == t[target].project && u[id].kind == t[target].kind && u[id].createdAt == now
              && u[id].replacesId == Some(target) && u[id].supersededById == None
              && target in u && u[target].status == Superseded && u[target].supersededById == Some(id)
              && u[target].updatedAt == now && SameMemory(t[target], u[target]) && SameExcept(t, u, {id, target})
            else u == t
  {
  }

  ghost predicate NewRow(u: Table, id: Id, content: string, project: Option<string>, kind: Option<string>, now: int) {
    && id in u && u[id].id == id && u[id].content == content && u[id].project == project && u[id].kind == kind
    && u[id].createdAt == now && u[id].updatedAt == now && u[id].status == Active
    && u[id].replacesId == None && u[id].supersededById == None
  }

  /** A created memory holds its content under the stored spelling of its project, which must exist. */
  lemma CreateEffect(env: Env, t: Table, content: string, project: Option<string>, kind: Option<string>, id: Id,
                     now: int)
    requires FreshId(t, id)
    ensures var u := Apply(env, t, Create(content, project, kind, id, now));
            if project.Some? && Fold(project.value) !in env.projects then u == t
            else
              && SameExcept(t, u, {id})
              && NewRow(u, id, content, if project.Some? then Some(env.projects[Fold(project.value)]) else None, kind,
                        now)
  {
  }

  lemma SaveChatEffect(env: Env, t: Table, content: string, project: Option<string>, id: Id, now: int)
    requires FreshId(t, id)
    ensures var u := Apply(env, t, SaveChat(content, project, id, now));
            NewRow(u, id, content, project, Some("explicit_chat"), now) && SameExcept(t, u, {id})
  {
  }

  /** Only an active row that neither replaces nor is replaced can be deleted. */
  lemma DeleteEffect(env: Env, t: Table, target: Id)
    requires WellFormed(t)
    ensures var u := Apply(env, t, Delete(target));
            if target in t && t[target].status == Active && t[target].replacesId == None
            then target !in u && SameExcept(t, u, {target}) else u == t
  {
  }

  /** An import keeps every row, and adds an active row for exactly the entries without an active one: each new row
      comes from such an entry, and each such entry gets one. */
  lemma ImportEffect(env: Env, t: Table, es: seq<Entry>, ids: seq<Id>, now: int)
    requires Issues(t, Import(es, ids, now))
    ensures var u := Apply(env, t, Import(es, ids, now));
            if ImportError(env, t, es).Some? then u == t
            else
              && (forall x :: x in t ==> x in u && u[x] == t[x])
              && (forall x :: x in u && x !in t ==> Imported(env, t, es, u, x, now))
              && (forall e :: e in es && !HasActive(env, t, e) ==> Stored(u, e, now))
  {
    if ImportError(env, t, es).None? {
      var ready := Ready(env, t, es);
      var u := InsertAll(t, ready, ids, now);
      forall x | x in t
        ensures x in u && u[x] == t[x]
      {
        InsertAllKeeps(t, ready, ids, now, x);
      }
      forall x | x in u && x !in t
        ensures Imported(env, t, es, u, x, now)
      {
        var i := OriginOf(t, ready, ids, now, x);
        assert ready[i] in ready;
      }
      forall e | e in es && !HasActive(env, t, e)
        ensures Stored(u, e, now)
      {
        var i :| 0 <= i < |ready| && ready[i] == e;
        InsertAllAdds(t, ready, ids, now, i);
        assert NewRow(u, ids[i], e.content, e.project, Some("bootstrap_profile"), now);
      }
    }
  }

  ghost predicate Stored(u: Table, e: Entry, now: int) {
    exists id :: NewRow(u, id, e.content, e.project, Some("bootstrap_profile"), now)
  }

  ghost predicate Imported(env: Env, t: Table, es: seq<Entry>, u: Table, id: Id, now: int) {
    exists e :: e in es && !HasActive(env, t, e)
                && NewRow(u, id, e.content, e.project, Some("bootstrap_profile"), now)
  }

  lemma {:induction false} OriginOf(t: Table, es: seq<Entry>, ids: seq<Id>, now: int, x: Id) returns (i: nat)
    requires |es| <= |ids| && FreshIds(t, ids) && x in InsertAll(t, es, ids, now) && x !in t
    ensures i < |es| && NewRow(InsertAll(t, es, ids, now), x, es[i].content, es[i].project,
                               Some("bootstrap_profile"), now)
  {
    var n := |es| - 1;
    if x == ids[n] {
      i := n;
    } else {
      i := OriginOf(t, es[..n], ids, now, x);
    }
  }

  // ----- whole runs -------------------------------------------------------------------------------

  /** The row is still there with its content and its predecessor; a superseded one is untouched. */
  ghost predicate Persists(t: Table, u: Table, id: Id)
    requires id in t
  {
    id in u && SameMemory(t[id], u[id]) && (t[id].status == Superseded ==> u[id] == t[id])
  }

  lemma ImportPersists(env: Env, t: Table, es: seq<Entry>, ids: seq<Id>, now: int, id: Id)
    requires Issues(t, Import(es, ids, now)) && id in t
    ensures var u := Apply(env, t, Import(es, ids, now)); id in u && u[id] == t[id]
  {
    ImportEffect(env, t, es, ids, now);
  }

  /** Only its own deletion removes a row, and only a standalone active one; only its own restore wakes an archived
      one. */
  lemma StepPersists(env: Env, t: Table, cmd: Command, id: Id)
    requires WellFormed(t) && Issues(t, cmd) && id in t
    ensures Persists(t, Apply(env, t, cmd), id) ||
            (cmd == Delete(id) && t[id].status == Active && t[id].replacesId == None)
    ensures t[id].status == Archived && !(cmd.Restore? && cmd.target == id) ==>
              id in Apply(env, t, cmd) && Apply(env, t, cmd)[id] == t[id]
  {
    match cmd
    case Create(content, project, kind, added, now) => CreateEffect(env, t, content, project, kind, added, now);
    case SaveChat(content, project, added, now) => SaveChatEffect(env, t, content, project, added, now);
    case Correct(target, content, added, now) => CorrectEffect(env, t, target, content, added, now);
    case Archive(target, now) => ArchiveEffect(env, t, target, now);
    case Restore(target, now) => RestoreEffect(env, t, target, now);
    case Delete(target) => DeleteEffect(env, t, target);
    case Import(entries, ids, now) => ImportPersists(env, t, entries, ids, now, id);
  }

  /** Over every run: a memory keeps its content, scope and predecessor for as long as it exists, and exists until it
      is deleted; a superseded one, or one that replaced another, is never deleted at all. */
  lemma {:induction false} RowsPersist(env: seq<Env>, t: Table, cmds: seq<Command>, u: Table, id: Id)
    requires WellFormed(t) && Runs(env, t, cmds, u) && id in t
    requires Delete(id) !in cmds || t[id].replacesId.Some? || t[id].status == Superseded
    ensures Persists(t, u, id)
    decreases |cmds|
  {
    if cmds != [] {
      var next := Apply(env[0], t, cmds[0]);
      StepPersists(env[0], t, cmds[0], id);
      ApplyKeepsWellFormed(env[0], t, cmds[0]);
      assert cmds == [cmds[0]] + cmds[1..];
      RowsPersist(env[1..], next, cmds[1..], u, id);
    }
  }

  /** Over every run an archived memory stays exactly as it is until it is restored. */
  lemma {:induction false} ArchivedStays(env: seq<Env>, t: Table, cmds: seq<Command>, u: Table, id: Id)
    requires WellFormed(t) && Runs(env, t, cmds, u) && id in t && t[id].status == Archived
    requires forall cmd :: cmd in cmds && cmd.Restore? ==> cmd.target != id
    ensures id in u && u[id] == t[id]
    decreases |cmds|
  {
    if cmds != [] {
      var next := Apply(env[0], t, cmds[0]);
      StepPersists(env[0], t, cmds[0], id);
      ApplyKeepsWellFormed(env[0], t, cmds[0]);
      assert cmds == [cmds[0]] + cmds[1..];
      ArchivedStays(env[1..], next, cmds[1..], u, id);
    }
  }
}
