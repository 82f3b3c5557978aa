/** The long-term memory table: rows linked into correction chains by
    `replacesId` and `supersededById`, and the lifecycle operations on them
    (backend/memory.py, backend/chat_memory.py, backend/bootstrap_profile.py). */
module MemoryStore {
  import opened PyText

  type Id = string

  datatype Status = Active | Superseded | Archived

  datatype Memory = Memory(
    id: Id, content: string, project: Option<string>, kind: Option<string>,
    createdAt: int, status: Status, updatedAt: int,
    replacesId: Option<Id>, supersededById: Option<Id>)

  type Table = map<Id, Memory>

  /** Project names keyed by their folded form, as the NOCASE unique column stores them. */
  type Projects = map<string, string>

  /** What an operation reads besides the table: the project list and the
      duplicate key (folded scope, normalised content) of profile entries. */
  datatype Env = Env(projects: Projects, key: (Option<string>, string) -> (Option<string>, string))

  datatype Entry = Entry(content: string, project: Option<string>)

  datatype StoreError =
    | ProjectMissing | EmptyCorrection | NotFound | NotActive | SameContent
    | ArchiveConflict | RestoreConflict | HistoryProtected | ImportBlocked | DuplicateEntries

  datatype HistoryError = Cycle | Incomplete

  // ----- chains ------------------------------------------------------------

  /** Primary-key consistency; identifiers are never empty text. */
  ghost predicate Keyed(t: Table) {
    forall id :: id in t ==> t[id].id == id && id != ""
  }

  ghost predicate Linked(t: Table, a: Id, b: Id) {
    && a in t && b in t
    && t[a].supersededById == Some(b) && t[b].replacesId == Some(a)
  }

  ghost predicate Joined(t: Table, c: seq<Id>, i: int) {
    0 < i < |c| ==> Linked(t, c[i - 1], c[i])
  }

  /** `c` lists one whole correction chain of `t`, oldest first. */
  ghost predicate IsChain(t: Table, c: seq<Id>) {
    && c != []
    && (forall i :: 0 <= i < |c| ==> c[i] in t)
    && t[c[0]].replacesId == None
    && t[c[|c| - 1]].supersededById == None
    && (forall i :: Joined(t, c, i))
  }

  ghost predicate OnChain(t: Table, id: Id) {
    exists c :: IsChain(t, c) && id in c
  }

  /** What a correction keeps and what it must change. */
  ghost predicate Corrects(older: Memory, newer: Memory) {
    && newer.project == older.project && newer.kind == older.kind
    && newer.content != older.content
  }

  /** The lifecycle invariant of the table. */
  ghost predicate WellFormed(t: Table) {
    && Keyed(t)
    && (forall id :: id in t ==> (t[id].status == Superseded <==> t[id].supersededById.Some?))
    && (forall id {:trigger OnChain(t, id)} :: id in t ==> OnChain(t, id))
    && (forall a, b :: Linked(t, a, b) ==> Corrects(t[a], t[b]))
  }

  // ----- consequences of the invariant ---------------------------------------

  /** Following `replacesId` from equal rows arrives at equal rows. */
  lemma {:induction false} ChainsAgreeBackwards(t: Table, c: seq<Id>, d: seq<Id>, i: nat, j: nat)
    requires IsChain(t, c) && IsChain(t, d)
    requires i < |c| && j < |d| && c[i] == d[j]
    ensures i == j && c[..i + 1] == d[..j + 1]
  {
    assert Joined(t, c, i) && Joined(t, d, j);
    if i > 0 && j > 0 {
      ChainsAgreeBackwards(t, c, d, i - 1, j - 1);
      assert c[..i + 1] == c[..i] + [c[i]];
      assert d[..j + 1] == d[..j] + [d[j]];
    }
  }

  /** Two chains that share a row are the same chain: chains are disjoint. */
  lemma {:induction false} ChainUnique(t: Table, c: seq<Id>, d: seq<Id>, i: nat, j: nat)
    requires IsChain(t, c) && IsChain(t, d)
    requires i < |c| && j < |d| && c[i] == d[j]
    ensures c == d
    decreases |c| - i
  {
    ChainsAgreeBackwards(t, c, d, i, j);
    assert Joined(t, c, i + 1) && Joined(t, d, j + 1);
    if i + 1 < |c| {
      ChainUnique(t, c, d, i + 1, j + 1);
    }
  }

  /** No row occurs twice on a chain, so the links contain no cycle. */
  lemma ChainDistinct(t: Table, c: seq<Id>)
    requires IsChain(t, c)
    ensures forall i, j :: 0 <= i < j < |c| ==> c[i] != c[j]
  {
    forall i, j | 0 <= i < j < |c| ensures c[i] != c[j] {
      if c[i] == c[j] {
        ChainsAgreeBackwards(t, c, c, i, j);
      }
    }
  }

  /** The table is a disjoint union of finite duplicate-free chains: every row
      lies on exactly one; its last row is the only one not superseded, all its
      rows share project and kind, and neighbouring contents differ. */
  lemma TableIsDisjointChains(t: Table, id: Id) returns (c: seq<Id>)
    requires WellFormed(t) && id in t
    ensures IsChain(t, c) && id in c
    ensures forall d :: IsChain(t, d) && (exists x :: x in c && x in d) ==> d == c
    ensures forall i, j :: 0 <= i < j < |c| ==> c[i] != c[j]
    ensures forall i :: 0 <= i < |c| ==> (t[c[i]].status != Superseded <==> i == |c| - 1)
    ensures forall i :: 0 <= i < |c| ==> t[c[i]].project == t[id].project && t[c[i]].kind == t[id].kind
    ensures forall i, j :: 0 <= i && j == i + 1 && j < |c| ==> t[c[i]].content != t[c[j]].content
  {
    assert OnChain(t, id);
    c :| IsChain(t, c) && id in c;
    ChainDistinct(t, c);
    forall d | IsChain(t, d) && (exists x :: x in c && x in d) ensures d == c {
      var x :| x in c && x in d;
      var i :| 0 <= i < |c| && c[i] == x;
      var j :| 0 <= j < |d| && d[j] == x;
      ChainUnique(t, d, c, j, i);
    }
    forall i | 0 <= i < |c| ensures t[c[i]].status != Superseded <==> i == |c| - 1 {
      assert Joined(t, c, i + 1);
    }
    forall i, j | 0 <= i && j == i + 1 && j < |c| ensures t[c[i]].content != t[c[j]].content {
      assert Joined(t, c, j);
    }
    var k :| 0 <= k < |c| && c[k] == id;
    SameScope(t, c, k);
    forall i | 0 <= i < |c| ensures t[c[i]].project == t[id].project && t[c[i]].kind == t[id].kind {
      SameScope(t, c, i);
    }
  }

  lemma {:induction false} SameScope(t: Table, c: seq<Id>, i: nat)
    requires WellFormed(t) && IsChain(t, c) && i < |c|
    ensures t[c[i]].project == t[c[0]].project && t[c[i]].kind == t[c[0]].kind
  {
    if i > 0 {
      assert Joined(t, c, i);
      SameScope(t, c, i - 1);
    }
  }

  /** Both links are mutual inverses and never dangle. */
  lemma LinksAreMutual(t: Table, a: Id)
    requires WellFormed(t) && a in t
    ensures forall b :: t[a].supersededById == Some(b) ==> Linked(t, a, b)
    ensures forall b :: t[a].replacesId == Some(b) ==> Linked(t, b, a)
  {
    assert OnChain(t, a);
    var c :| IsChain(t, c) && a in c;
    var i :| 0 <= i < |c| && c[i] == a;
    assert Joined(t, c, i) && Joined(t, c, i + 1);
  }

  // ----- the operations as functions on the table ----------------------------

  datatype Command =
    | Create(content: string, project: Option<string>, kind: Option<string>, id: Id, now: int)
    | SaveChat(content: string, project: Option<string>, id: Id, now: int)
    | Correct(target: Id, content: string, id: Id, now: int)
    | Archive(target: Id, now: int)
    | Restore(target: Id, now: int)
    | Delete(target: Id)
    | Import(entries: seq<Entry>, ids: seq<Id>, now: int)

  function Fresh(m: Id, content: string, project: Option<string>, kind: Option<string>, now: int): Memory {
    Memory(m, content, project, kind, now, Active, now, None, None)
  }

  /** The canonical spelling of a requested project; no request means the global scope. */
  function Canonical(projects: Projects, project: Option<string>): Result<Option<string>, StoreError> {
    match project
    case None => Ok(None)
    case Some(name) => if Fold(name) in projects then Ok(Some(projects[Fold(name)])) else Err(ProjectMissing)
  }

  function CorrectionError(t: Table, target: Id, content: string): Option<StoreError> {
    if Strip(content) == "" then Some(EmptyCorrection)
    else if target !in t then Some(NotFound)
    else if t[target].status != Active then Some(NotActive)
    else if Strip(content) == t[target].content then Some(SameContent)
    else None
  }

  function Replacement(original: Memory, content: string, id: Id, now: int): Memory {
    Memory(id, Strip(content), original.project, original.kind, now, Active, now, Some(original.id), None)
  }

  function Retired(m: Memory, id: Id, now: int): Memory {
    m.(status := Superseded, updatedAt := now, supersededById := Some(id))
  }

  function MoveError(t: Table, target: Id, from: Status, conflict: StoreError): Option<StoreError> {
    if target !in t then Some(NotFound)
    else if t[target].status != from || t[target].supersededById.Some? then Some(conflict)
    else None
  }

  function RowKey(env: Env, m: Memory): (Option<string>, string) {
    env.key(m.project, m.content)
  }

  function EntryKey(env: Env, e: Entry): (Option<string>, string) {
    env.key(e.project, e.content)
  }

  predicate HasActive(env: Env, t: Table, e: Entry) {
    exists id :: id in t && RowKey(env, t[id]) == EntryKey(env, e) && t[id].status == Active
  }

  /** An archived or corrected row with the same key blocks the whole import. */
  predicate HasConflict(env: Env, t: Table, e: Entry) {
    exists id :: id in t && RowKey(env, t[id]) == EntryKey(env, e) && t[id].status != Active
  }

  predicate DistinctEntries(env: Env, es: seq<Entry>) {
    forall i, j :: 0 <= i < j < |es| ==> EntryKey(env, es[i]) != EntryKey(env, es[j])
  }

  /** The entries an import will insert, in manifest order. */
  function Ready(env: Env, t: Table, es: seq<Entry>): (r: seq<Entry>)
    ensures |r| <= |es|
    ensures forall e :: e in r <==> e in es && !HasActive(env, t, e)
  {
    if es == [] then []
    else
      var last := es[|es| - 1];
      assert es == es[..|es| - 1] + [last];
      Ready(env, t, es[..|es| - 1]) + (if HasActive(env, t, last) then [] else [last])
  }

  function InsertAll(t: Table, es: seq<Entry>, ids: seq<Id>, now: int): Table
    requires |es| <= |ids|
  {
    if es == [] then t
    else
      var n := |es| - 1;
      InsertAll(t, es[..n], ids, now)[ids[n] := Fresh(ids[n], es[n].content, es[n].project, Some("bootstrap_profile"),
                                                      now)]
  }

  function ImportError(env: Env, t: Table, es: seq<Entry>): Option<StoreError> {
    if !DistinctEntries(env, es) then Some(DuplicateEntries)
    else if exists e :: e in es && HasConflict(env, t, e) then Some(ImportBlocked)
    else None
  }

  /** The table after a command; a refused command leaves it as it was. */
  function Apply(env: Env, t: Table, cmd: Command): Table
    requires Issues(t, cmd)
  {
    match cmd
    case Create(content, project, kind, id, now) =>
      (match Canonical(env.projects, project)
       case Ok(p) => t[id := Fresh(id, content, p, kind, now)]
       case Err(_) => t)
    case SaveChat(content, project, id, now) =>
      t[id := Fresh(id, content, project, Some("explicit_chat"), now)]
    case Correct(target, content, id, now) =>
      if CorrectionError(t, target, content).Some? then t
      else t[id := Replacement(t[target], content, id, now)][target := Retired(t[target], id, now)]
    case Archive(target, now) =>
      if MoveError(t, target, Active, ArchiveConflict).Some? then t
      else t[target := t[target].(status := Archived, updatedAt := now)]
    case Restore(target, now) =>
      if MoveError(t, target, Archived, RestoreConflict).Some? then t
      else t[target := t[target].(status := Active, updatedAt := now)]
    case Delete(target) =>
      if target !in t || Protected(t[target]) then t else t - {target}
    case Import(entries, ids, now) =>
      if ImportError(env, t, entries).Some? then t
      else InsertAll(t, Ready(env, t, entries), ids, now)
  }

  predicate Protected(m: Memory) {
    m.replacesId.Some? || m.supersededById.Some? || m.status == Superseded || m.status == Archived
  }

  /** A row identifier drawn from uuid4: not empty, not used so far. */
  predicate FreshId(t: Table, id: Id) {
    id != "" && id !in t
  }

  predicate Issues(t: Table, cmd: Command) {
    match cmd
    case Create(_, _, _, id, _) => FreshId(t, id)
    case SaveChat(_, _, id, _) => FreshId(t, id)
    case Correct(_, _, id, _) => FreshId(t, id)
    case Import(entries, ids, _) =>
      && |ids| == |entries|
      && (forall i :: 0 <= i < |ids| ==> FreshId(t, ids[i]))
      && (forall i, j :: 0 <= i < j < |ids| ==> ids[i] != ids[j])
    case _ => true
  }

  // ----- preservation ---------------------------------------------------------

  /** A chain all of whose rows keep their links is a chain of the new table. */
  lemma ChainKept(t: Table, u: Table, c: seq<Id>)
    requires IsChain(t, c)
    requires forall x :: x in c ==>
               x in u && u[x].replacesId == t[x].replacesId && u[x].supersededById == t[x].supersededById
    ensures IsChain(u, c)
  {
    forall i ensures Joined(u, c, i) {
      assert Joined(t, c, i);
    }
  }

  lemma InsertKeepsWellFormed(t: Table, m: Memory)
    requires WellFormed(t) && FreshId(t, m.id)
    requires m.status == Active && m.replacesId == None && m.supersededById == None
    ensures WellFormed(t[m.id := m])
  {
    var u := t[m.id := m];
    forall id {:trigger OnChain(u, id)} | id in u ensures OnChain(u, id) {
      if id == m.id {
        assert IsChain(u, [id]);
        assert id in [id];
      } else {
        assert OnChain(t, id);
        var c :| IsChain(t, c) && id in c;
        ChainKept(t, u, c);
      }
    }
    forall a, b | Linked(u, a, b) ensures Corrects(u[a], u[b]) {
      assert Linked(t, a, b);
    }
  }

  lemma RestatusKeepsWellFormed(t: Table, target: Id, m: Memory)
    requires WellFormed(t) && target in t
    requires t[target].supersededById == None && m.status != Superseded
    requires m == t[target].(status := m.status, updatedAt := m.updatedAt)
    ensures WellFormed(t[target := m])
  {
    var u := t[target := m];
    forall id {:trigger OnChain(u, id)} | id in u ensures OnChain(u, id) {
      assert OnChain(t, id);
      var c :| IsChain(t, c) && id in c;
      ChainKept(t, u, c);
    }
    forall a, b | Linked(u, a, b) ensures Corrects(u[a], u[b]) {
      assert Linked(t, a, b);
    }
  }

  lemma DeleteKeepsWellFormed(t: Table, target: Id)
    requires WellFormed(t) && target in t && !Protected(t[target])
    ensures WellFormed(t - {target})
  {
    var u := t - {target};
    forall id {:trigger OnChain(u, id)} | id in u ensures OnChain(u, id) {
      assert OnChain(t, id);
      var c :| IsChain(t, c) && id in c;
      if target in c {
        assert IsChain(t, [target]);
        var i :| 0 <= i < |c| && c[i] == target;
        ChainUnique(t, c, [target], i, 0);
        assert false;
      }
      ChainKept(t, u, c);
    }
    forall a, b | Linked(u, a, b) ensures Corrects(u[a], u[b]) {
      assert Linked(t, a, b);
    }
  }

  /** A correction extends the chain of its target by one row and leaves the others alone. */
  lemma CorrectExtendsChain(t: Table, target: Id, content: string, id: Id, now: int, c: seq<Id>)
    requires WellFormed(t) && FreshId(t, id)
    requires CorrectionError(t, target, content) == None
    requires IsChain(t, c)
    ensures var u := t[id := Replacement(t[target], content, id, now)][target := Retired(t[target], id, now)];
            if target in c then c[|c| - 1] == target && IsChain(u, c + [id]) else IsChain(u, c)
  {
    var u := t[id := Replacement(t[target], content, id, now)][target := Retired(t[target], id, now)];
    if target in c {
      var k :| 0 <= k < |c| && c[k] == target;
      assert Joined(t, c, k + 1);
      ChainDistinct(t, c);
      var d := c + [id];
      forall i ensures Joined(u, d, i) {
        assert Joined(t, c, i);
      }
    } else {
      ChainKept(t, u, c);
    }
  }

  lemma CorrectKeepsWellFormed(t: Table, target: Id, content: string, id: Id, now: int)
    requires WellFormed(t) && FreshId(t, id)
    requires CorrectionError(t, target, content) == None
    ensures WellFormed(t[id := Replacement(t[target], content, id, now)][target := Retired(t[target], id, now)])
  {
    var u := t[id := Replacement(t[target], content, id, now)][target := Retired(t[target], id, now)];
    forall x {:trigger OnChain(u, x)} | x in u ensures OnChain(u, x) {
      var y := if x == id then target else x;
      assert OnChain(t, y);
      var c :| IsChain(t, c) && y in c;
      CorrectExtendsChain(t, target, content, id, now, c);
      if target in c {
        assert x in c + [id];
      }
    }
    forall a, b | Linked(u, a, b) ensures Corrects(u[a], u[b]) {
      LinksAreMutual(t, target);
      if b != id {
        LinksAreMutual(t, b);
        assert a != target && b != id ==> Linked(t, a, b);
      }
    }
  }

  /** Every command keeps the invariant. */
  lemma ApplyKeepsWellFormed(env: Env, t: Table, cmd: Command)
    requires WellFormed(t) && Issues(t, cmd)
    ensures WellFormed(Apply(env, t, cmd))
  {
    match cmd
    case Create(content, project, kind, id, now) =>
      var p := Canonical(env.projects, project);
      if p.Ok? {
        InsertKeepsWellFormed(t, Fresh(id, content, p.value, kind, now));
      }
    case SaveChat(content, project, id, now) =>
      InsertKeepsWellFormed(t, Fresh(id, content, project, Some("explicit_chat"), now));
    case Correct(target, content, id, now) =>
      if CorrectionError(t, target, content).None? {
        CorrectKeepsWellFormed(t, target, content, id, now);
      }
    case Archive(target, now) =>
      if MoveError(t, target, Active, ArchiveConflict).None? {
        RestatusKeepsWellFormed(t, target, t[target].(status := Archived, updatedAt := now));
      }
    case Restore(target, now) =>
      if MoveError(t, target, Archived, RestoreConflict).None? {
        RestatusKeepsWellFormed(t, target, t[target].(status := Active, updatedAt := now));
      }
    case Delete(target) =>
      if target in t && !Protected(t[target]) {
        DeleteKeepsWellFormed(t, target);
      }
    case Import(entries, ids, now) =>
      if ImportError(env, t, entries).None? {
        InsertAllKeepsWellFormed(t, Ready(env, t, entries), ids, now);
      }
  }

  lemma {:induction false} InsertAllKeepsWellFormed(t: Table, es: seq<Entry>, ids: seq<Id>, now: int)
    requires WellFormed(t) && |es| <= |ids| && FreshIds(t, ids)
    ensures WellFormed(InsertAll(t, es, ids, now))
  {
    if es != [] {
      var n := |es| - 1;
      InsertAllKeepsWellFormed(t, es[..n], ids, now);
      LaterIdUnused(t, es[..n], ids, now, n);
      InsertKeepsWellFormed(InsertAll(t, es[..n], ids, now),
                            Fresh(ids[n], es[n].content, es[n].project, Some("bootstrap_profile"), now));
    }
  }

  predicate FreshIds(t: Table, ids: seq<Id>) {
    && (forall i :: 0 <= i < |ids| ==> FreshId(t, ids[i]))
    && (forall i, j :: 0 <= i < j < |ids| ==> ids[i] != ids[j])
  }

  lemma {:induction false} LaterIdUnused(t: Table, es: seq<Entry>, ids: seq<Id>, now: int, k: nat)
    requires |es| <= k < |ids| && FreshIds(t, ids)
    ensures FreshId(InsertAll(t, es, ids, now), ids[k])
  {
    if es != [] {
      LaterIdUnused(t, es[..|es| - 1], ids, now, k);
    }
  }

  /** Existing rows stay as they are, and every new row is active. */
  lemma {:induction false} InsertAllKeeps(t: Table, es: seq<Entry>, ids: seq<Id>, now: int, id: Id)
    requires |es| <= |ids| && FreshIds(t, ids)
    ensures var u := InsertAll(t, es, ids, now);
            && (id in t ==> id in u && u[id] == t[id])
            && (id in u && id !in t ==> u[id].status == Active)
  {
    if es != [] {
      InsertAllKeeps(t, es[..|es| - 1], ids, now, id);
    }
  }

  /** Each entry gets its row. */
  lemma {:induction false} InsertAllAdds(t: Table, es: seq<Entry>, ids: seq<Id>, now: int, i: nat)
    requires i < |es| <= |ids| && FreshIds(t, ids)
    ensures var u := InsertAll(t, es, ids, now);
            ids[i] in u && u[ids[i]] == Fresh(ids[i], es[i].content, es[i].project, Some("bootstrap_profile"), now)
  {
    if i < |es| - 1 {
      InsertAllAdds(t, es[..|es| - 1], ids, now, i);
    }
  }

  /** After an accepted import every entry of the profile is active and none is blocked. */
  lemma ImportedIsActive(env: Env, t: Table, es: seq<Entry>, ids: seq<Id>, now: int, e: Entry)
    requires Issues(t, Import(es, ids, now)) && ImportError(env, t, es).None? && e in es
    ensures var u := InsertAll(t, Ready(env, t, es), ids, now); HasActive(env, u, e) && !HasConflict(env, u, e)
  {
    var ready := Ready(env, t, es);
    var u := InsertAll(t, ready, ids, now);
    if HasActive(env, t, e) {
      var id :| id in t && RowKey(env, t[id]) == EntryKey(env, e) && t[id].status == Active;
      InsertAllKeeps(t, ready, ids, now, id);
    } else {
      var i :| 0 <= i < |ready| && ready[i] == e;
      InsertAllAdds(t, ready, ids, now, i);
    }
    assert !HasConflict(env, t, e);
    forall id | id in u && RowKey(env, u[id]) == EntryKey(env, e)
      ensures u[id].status == Active
    {
      InsertAllKeeps(t, ready, ids, now, id);
    }
  }

  lemma {:induction false} NothingReady(env: Env, u: Table, es: seq<Entry>)
    requires forall e :: e in es ==> HasActive(env, u, e)
    ensures Ready(env, u, es) == []
  {
    if es != [] {
      NothingReady(env, u, es[..|es| - 1]);
    }
  }

  /** Importing an accepted profile a second time is accepted and changes nothing. */
  lemma ImportIsIdempotent(env: Env, t: Table, es: seq<Entry>, ids: seq<Id>, now: int, ids2: seq<Id>, later: int)
    requires Issues(t, Import(es, ids, now)) && ImportError(env, t, es).None?
    requires Issues(Apply(env, t, Import(es, ids, now)), Import(es, ids2, later))
    ensures var u := Apply(env, t, Import(es, ids, now));
            ImportError(env, u, es).None? && Apply(env, u, Import(es, ids2, later)) == u
  {
    var u := InsertAll(t, Ready(env, t, es), ids, now);
    forall e | e in es
      ensures HasActive(env, u, e) && !HasConflict(env, u, e)
    {
      ImportedIsActive(env, t, es, ids, now, e);
    }
    NothingReady(env, u, es);
  }

  // ----- whole runs -----------------------------------------------------------

  /** The table after a sequence of commands, each issued with fresh identifiers. */
  ghost predicate Runs(env: seq<Env>, t: Table, cmds: seq<Command>, u: Table) {
    && |env| == |cmds|
    && (if cmds == [] then u == t
        else Issues(t, cmds[0]) && Runs(env[1..], Apply(env[0], t, cmds[0]), cmds[1..], u))
  }

  /** Every table reachable from the empty one is a disjoint union of chains,
      whatever the projects are at each step. */
  lemma {:induction false} ReachableIsWellFormed(env: seq<Env>, t: Table, cmds: seq<Command>, u: Table)
    requires WellFormed(t) && Runs(env, t, cmds, u)
    ensures WellFormed(u)
    decreases |cmds|
  {
    if cmds != [] {
      ApplyKeepsWellFormed(env[0], t, cmds[0]);
      ReachableIsWellFormed(env[1..], Apply(env[0], t, cmds[0]), cmds[1..], u);
    }
  }

  lemma EmptyIsWellFormed()
    ensures WellFormed(map[])
  {
  }

  // ----- the store ------------------------------------------------------------

  function RowsOf(t: Table, c: seq<Id>): seq<Memory>
    requires forall i :: 0 <= i < |c| ==> c[i] in t
  {
    seq(|c|, i requires 0 <= i < |c| => t[c[i]])
  }

  /** The answer a history request must give: the whole chain, oldest first. */
  ghost predicate IsHistory(t: Table, id: Id, h: seq<Memory>) {
    exists c :: IsChain(t, c) && id in c && h == RowsOf(t, c)
  }

  /** Every member of one chain gets the same history. */
  lemma HistoryIsShared(t: Table, c: seq<Id>, a: Id, b: Id, h: seq<Memory>, k: seq<Memory>)
    requires IsChain(t, c) && a in c && b in c
    requires IsHistory(t, a, h) && IsHistory(t, b, k)
    ensures h == k == RowsOf(t, c)
  {
    var d :| IsChain(t, d) && a in d && h == RowsOf(t, d);
    var e :| IsChain(t, e) && b in e && k == RowsOf(t, e);
    var i :| 0 <= i < |c| && c[i] == a;
    var j :| 0 <= j < |d| && d[j] == a;
    ChainUnique(t, c, d, i, j);
    var m :| 0 <= m < |c| && c[m] == b;
    var n :| 0 <= n < |e| && e[n] == b;
    ChainUnique(t, c, e, m, n);
  }

  datatype Class = ReadyToImport | AlreadyActive | Blocked

  function ClassOf(env: Env, t: Table, e: Entry): Class {
    if HasConflict(env, t, e) then Blocked else if HasActive(env, t, e) then AlreadyActive else ReadyToImport
  }

  /** The entries of one class, in manifest order. */
  function Classed(env: Env, t: Table, es: seq<Entry>, c: Class): seq<Entry> {
    if es == [] then []
    else
      var last := es[|es| - 1];
      Classed(env, t, es[..|es| - 1], c) + (if ClassOf(env, t, last) == c then [last] else [])
  }

  datatype Preview = Preview(ready: seq<Entry>, alreadyActive: seq<Entry>, blocked: seq<Entry>)

  /** Sorts the entries of a manifest against the table, each into exactly one list. */
  method Classify(env: Env, t: Table, entries: seq<Entry>) returns (r: Preview)
    ensures r == Preview(Classed(env, t, entries, ReadyToImport), Classed(env, t, entries, AlreadyActive),
                         Classed(env, t, entries, Blocked))
    ensures |r.ready| + |r.alreadyActive| + |r.blocked| == |entries|
    ensures r.blocked == [] <==> forall e :: e in entries ==> !HasConflict(env, t, e)
    ensures r.blocked == [] ==> r.ready == Ready(env, t, entries)
  {
    r := Preview([], [], []);
    for i := 0 to |entries|
      invariant |r.ready| + |r.alreadyActive| + |r.blocked| == i
      invariant r == Preview(Classed(env, t, entries[..i], ReadyToImport), Classed(env, t, entries[..i], AlreadyActive),
                             Classed(env, t, entries[..i], Blocked))
    {
      assert entries[..i + 1][..i] == entries[..i];
      if HasConflict(env, t, entries[i]) {
        r := r.(blocked := r.blocked + [entries[i]]);
      } else if HasActive(env, t, entries[i]) {
        r := r.(alreadyActive := r.alreadyActive + [entries[i]]);
      } else {
        r := r.(ready := r.ready + [entries[i]]);
      }
    }
    assert entries[..|entries|] == entries;
    UnblockedIsReady(env, t, entries);
  }

  /** What an import will insert, or why it is refused. */
  method PlanImport(env: Env, t: Table, entries: seq<Entry>) returns (r: Result<seq<Entry>, StoreError>)
    ensures r == match ImportError(env, t, entries)
                 case Some(e) => Err(e)
                 case None => Ok(Ready(env, t, entries))
  {
    if !DistinctEntries(env, entries) {
      return Err(DuplicateEntries);
    }
    var preview := Classify(env, t, entries);
    r := if preview.blocked != [] then Err(ImportBlocked) else Ok(preview.ready);
  }

  lemma {:induction false} UnblockedIsReady(env: Env, t: Table, es: seq<Entry>)
    ensures Classed(env, t, es, Blocked) == [] <==> forall e :: e in es ==> !HasConflict(env, t, e)
    ensures Classed(env, t, es, Blocked) == [] ==> Classed(env, t, es, ReadyToImport) == Ready(env, t, es)
  {
    if es != [] {
      var front, last := es[..|es| - 1], es[|es| - 1];
      assert es == front + [last];
      UnblockedIsReady(env, t, front);
    }
  }

  class Store {
    var rows: Table

    constructor ()
      ensures rows == map[] && WellFormed(rows)
    {
      rows := map[];
      EmptyIsWellFormed();
    }

    method CreateMemory(env: Env, content: string, project: Option<string>, kind: Option<string>, id: Id, now: int)
      returns (r: Result<Memory, StoreError>)
      requires FreshId(rows, id)
      modifies this
      ensures rows == Apply(env, old(rows), Create(content, project, kind, id, now))
      ensures r.Ok? <==> Canonical(env.projects, project).Ok?
      ensures r.Ok? ==> id in rows && r.value == rows[id]
      ensures old(WellFormed(rows)) ==> WellFormed(rows)
    {
      ghost var before := rows;
      var scope := project;
      if project.Some? {
        if Fold(project.value) !in env.projects {
          return Err(ProjectMissing);
        }
        scope := Some(env.projects[Fold(project.value)]);
      }
      var memory := Memory(id, content, scope, kind, now, Active, now, None, None);
      rows := rows[id := memory];
      r := Ok(memory);
      if WellFormed(before) {
        ApplyKeepsWellFormed(env, before, Create(content, project, kind, id, now));
      }
    }

    method CorrectMemory(env: Env, target: Id, content: string, id: Id, now: int)
      returns (r: Result<(Memory, Memory), StoreError>)
      requires FreshId(rows, id) && Keyed(rows)
      modifies this
      ensures rows == Apply(env, old(rows), Correct(target, content, id, now))
      ensures r == match CorrectionError(old(rows), target, content)
                   case Some(e) => Err(e)
                   case None => Ok((rows[target], rows[id]))
      ensures old(WellFormed(rows)) ==> WellFormed(rows)
    {
      ghost var before := rows;
      var corrected := Strip(content);
      if corrected == "" {
        return Err(EmptyCorrection);
      }
      if target !in rows {
        return Err(NotFound);
      }
      var original := rows[target];
      if original.status != Active {
        return Err(NotActive);
      }
      if corrected == original.content {
        return Err(SameContent);
      }
      var replacement := Memory(id, corrected, original.project, original.kind, now, Active, now, Some(original.id),
                                None);
      rows := rows[id := replacement];
      rows := rows[target := original.(status := Superseded, updatedAt := now, supersededById := Some(id))];
      r := Ok((rows[target], rows[id]));
      if WellFormed(before) {
        ApplyKeepsWellFormed(env, before, Correct(target, content, id, now));
      }
    }

    method ArchiveMemory(env: Env, target: Id, now: int) returns (r: Result<Memory, StoreError>)
      modifies this
      ensures rows == Apply(env, old(rows), Archive(target, now))
      ensures r == match MoveError(old(rows), target, Active, ArchiveConflict)
                   case Some(e) => Err(e)
                   case None => Ok(rows[target])
      ensures r.Ok? ==> old(rows)[target].status == Active && r.value == old(rows)[target].(status := Archived,
                                                                                           updatedAt := now)
      ensures old(WellFormed(rows)) ==> WellFormed(rows)
    {
      ghost var before := rows;
      if target !in rows {
        return Err(NotFound);
      }
      var memory := rows[target];
      if memory.status != Active || memory.supersededById.Some? {
        return Err(ArchiveConflict);
      }
      rows := rows[target := memory.(status := Archived, updatedAt := now)];
      r := Ok(rows[target]);
      if WellFormed(before) {
        ApplyKeepsWellFormed(env, before, Archive(target, now));
      }
    }

    method RestoreMemory(env: Env, target: Id, now: int) returns (r: Result<Memory, StoreError>)
      modifies this
      ensures rows == Apply(env, old(rows), Restore(target, now))
      ensures r == match MoveError(old(rows), target, Archived, RestoreConflict)
                   case Some(e) => Err(e)
                   case None => Ok(rows[target])
      ensures r.Ok? ==> old(rows)[target].status == Archived && r.value == old(rows)[target].(status := Active,
                                                                                             updatedAt := now)
      ensures old(WellFormed(rows)) ==> WellFormed(rows)
    {
      ghost var before := rows;
      if target !in rows {
        return Err(NotFound);
      }
      var memory := rows[target];
      if memory.status != Archived || memory.supersededById.Some? {
        return Err(RestoreConflict);
      }
      rows := rows[target := memory.(status := Active, updatedAt := now)];
      r := Ok(rows[target]);
      if WellFormed(before) {
        ApplyKeepsWellFormed(env, before, Restore(target, now));
      }
    }

    method DeleteMemory(env: Env, target: Id) returns (r: Result<bool, StoreError>)
      modifies this
      ensures rows == Apply(env, old(rows), Delete(target))
      ensures r == if target !in old(rows) then Ok(false)
                   else if Protected(old(rows)[target]) then Err(HistoryProtected)
                   else Ok(true)
      ensures old(WellFormed(rows)) ==> WellFormed(rows)
    {
      ghost var before := rows;
      if target !in rows {
        return Ok(false);
      }
      if Protected(rows[target]) {
        return Err(HistoryProtected);
      }
      rows := rows - {target};
      r := Ok(true);
      if WellFormed(before) {
        ApplyKeepsWellFormed(env, before, Delete(target));
      }
    }

    method InsertReady(ready: seq<Entry>, ids: seq<Id>, now: int)
      requires |ready| <= |ids|
      modifies this
      ensures rows == InsertAll(old(rows), ready, ids, now)
    {
      ghost var before := rows;
      for i := 0 to |ready|
        invariant rows == InsertAll(before, ready[..i], ids, now)
      {
        assert ready[..i + 1][..i] == ready[..i];
        rows := rows[ids[i] := Memory(ids[i], ready[i].content, ready[i].project, Some("bootstrap_profile"),
                                      now, Active, now, None, None)];
      }
      assert ready[..|ready|] == ready;
    }

    method ImportProfile(env: Env, entries: seq<Entry>, ids: seq<Id>, now: int)
      returns (r: Result<seq<Entry>, StoreError>)
      requires Issues(rows, Import(entries, ids, now))
      modifies this
      ensures rows == Apply(env, old(rows), Import(entries, ids, now))
      ensures r == match ImportError(env, old(rows), entries)
                   case Some(e) => Err(e)
                   case None => Ok(Ready(env, old(rows), entries))
      ensures old(WellFormed(rows)) ==> WellFormed(rows)
    {
      ghost var before := rows;
      r := PlanImport(env, rows, entries);
      if r.Ok? {
        InsertReady(r.value, ids, now);
        if WellFormed(before) {
          ApplyKeepsWellFormed(env, before, Import(entries, ids, now));
        }
      }
    }

    /** The forward pass: collects the rows from `start` along `supersededById`. */
    method WalkForward(start: Id, ghost c: seq<Id>) returns (r: Result<seq<Memory>, HistoryError>)
      requires Keyed(rows) && start in rows
      ensures IsChain(rows, c) && c[0] == start ==> r == Ok(RowsOf(rows, c))
    {
      ghost var good := IsChain(rows, c) && c[0] == start;
      if good {
        ChainDistinct(rows, c);
      }
      var history: seq<Memory> := [];
      var seen: set<Id> := {};
      var current := Some(rows[start]);
      while current.Some?
        invariant current.Some? ==> current.value.id in rows && rows[current.value.id] == current.value
        invariant seen <= rows.Keys
        invariant good ==> |history| <= |c| && history == RowsOf(rows, c[..|history|])
        invariant good ==> forall x :: x in seen ==> x in c[..|history|]
        invariant good ==> (current.Some? <==> |history| < |c|)
        invariant good && current.Some? ==> current.value.id == c[|history|]
        decreases rows.Keys - seen, current.Some?
      {
        assert good ==> Joined(rows, c, |history| + 1);
        assert good ==> c[..|history| + 1] == c[..|history|] + [c[|history|]];
        if current.value.id in seen {
          return Err(Cycle);
        }
        seen := seen + {current.value.id};
        history := history + [current.value];
        var next := current.value.supersededById;
        current := if next.Some? && next.value != "" && next.value in rows then Some(rows[next.value]) else None;
      }
      assert good ==> c[..|history|] == c;
      r := Ok(history);
    }

    /** Walks back to the oldest version, then forward to the newest. On a well-formed
        table neither error can be raised and the answer is the whole chain. */
    method GetMemoryHistory(id: Id) returns (r: Result<Option<seq<Memory>>, HistoryError>)
      requires Keyed(rows)
      ensures id !in rows ==> r == Ok(None)
      ensures id in rows && WellFormed(rows) ==> r.Ok? && r.value.Some? && IsHistory(rows, id, r.value.value)
    {
      if id !in rows {
        return Ok(None);
      }
      ghost var c: seq<Id>, k: int := [], 0;
      if WellFormed(rows) {
        assert OnChain(rows, id);
        c :| IsChain(rows, c) && id in c;
        k :| 0 <= k < |c| && c[k] == id;
        ChainDistinct(rows, c);
      }
      var current := rows[id];
      var seen: set<Id> := {};
      while current.replacesId.Some? && current.replacesId.value != ""
        invariant current.id in rows && rows[current.id] == current
        invariant seen <= rows.Keys
        invariant WellFormed(rows) ==> IsChain(rows, c) && 0 <= k < |c| && c[k] == current.id
        invariant WellFormed(rows) ==> forall x :: x in seen ==> x in c[k + 1..]
        decreases rows.Keys - seen
      {
        assert WellFormed(rows) ==> Joined(rows, c, k);
        if current.id in seen {
          return Err(Cycle);
        }
        seen := seen + {current.id};
        assert WellFormed(rows) ==> k > 0 && c[k..] == [c[k]] + c[k + 1..];
        if current.replacesId.value !in rows {
          return Err(Incomplete);
        }
        current := rows[current.replacesId.value];
        k := k - 1;
      }
      assert WellFormed(rows) ==> Joined(rows, c, k);
      var h := WalkForward(current.id, c);
      match h
      case Err(e) => r := Err(e);
      case Ok(history) => r := Ok(Some(history));
    }
  }
}
