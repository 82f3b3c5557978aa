/** Budgeting one provider request (backend/model_input.py, backend/conversation_guidance.py). */
module ModelInput {
  import opened PyText
  import opened MemoryContext

  datatype Message = Message(role: string, content: string)

  function Cost(m: Message): nat {
    |m.role| + |m.content|
  }

  function Costs(ms: seq<Message>): nat {
    if ms == [] then 0 else Cost(ms[0]) + Costs(ms[1..])
  }

  /** The newest `n` messages. */
  function Newest(ms: seq<Message>, n: nat): (r: seq<Message>)
    requires n <= |ms|
    ensures |r| == n
  {
    ms[|ms| - n..]
  }

  lemma NewestStep(ms: seq<Message>, n: nat)
    requires n < |ms|
    ensures Newest(ms, n + 1) == [ms[|ms| - n - 1]] + Newest(ms, n)
    ensures Costs(Newest(ms, n + 1)) == Cost(ms[|ms| - n - 1]) + Costs(Newest(ms, n))
  {
    var more := Newest(ms, n + 1);
    assert more[0] == ms[|ms| - n - 1] && more[1..] == Newest(ms, n);
  }

  lemma {:induction false} NewestGrows(ms: seq<Message>, a: nat, b: nat)
    requires a <= b <= |ms|
    ensures Costs(Newest(ms, a)) <= Costs(Newest(ms, b))
  {
    if a < b {
      NewestGrows(ms, a, b - 1);
      NewestStep(ms, b - 1);
    }
  }

  lemma {:induction false} PrefixGrows(entries: seq<string>, a: nat, b: nat)
    requires a <= b <= |entries|
    ensures |Join(entries[..a])| <= |Join(entries[..b])|
  {
    if a < b {
      PrefixGrows(entries, a, b - 1);
      assert entries[..b] == entries[..b - 1] + [entries[b - 1]];
      JoinBack(entries[..b - 1], entries[b - 1]);
    }
  }

  /** `n` is the most that fits: the newest `n` messages do, and no longer suffix does. */
  ghost predicate LongestSuffix(history: seq<Message>, budget: nat, n: nat) {
    && n <= |history| && Costs(Newest(history, n)) <= budget
    && forall k :: n < k <= |history| ==> Costs(Newest(history, k)) > budget
  }

  /** The first `n` entries fit when joined, and no longer prefix does. */
  ghost predicate LongestPrefix(entries: seq<string>, budget: nat, n: nat) {
    && n <= |entries| && |Join(entries[..n])| <= budget
    && forall k :: n < k <= |entries| ==> |Join(entries[..k])| > budget
  }

  method SelectRecentHistory(history: seq<Message>, budget: nat) returns (kept: seq<Message>)
    ensures |kept| <= |history| && kept == Newest(history, |kept|) && LongestSuffix(history, budget, |kept|)
  {
    kept := [];
    var used := 0;
    while |kept| < |history|
      invariant |kept| <= |history| && kept == Newest(history, |kept|) && used == Costs(kept) <= budget
      decreases |history| - |kept|
    {
      var n := |kept|;
      var message := history[|history| - n - 1];
      NewestStep(history, n);
      if used + Cost(message) > budget {
        forall k | n < k <= |history|
          ensures Costs(Newest(history, k)) > budget
        {
          NewestGrows(history, n + 1, k);
        }
        return;
      }
      kept := [message] + kept;
      used := used + Cost(message);
    }
  }

  method SelectRankedMemories(entries: seq<string>, budget: nat) returns (kept: seq<string>)
    ensures |kept| <= |entries| && kept == entries[..|kept|] && LongestPrefix(entries, budget, |kept|)
  {
    kept := [];
    var used := 0;
    while |kept| < |entries|
      invariant |kept| <= |entries| && kept == entries[..|kept|] && used == |Join(kept)| <= budget
      decreases |entries| - |kept|
    {
      var n := |kept|;
      var cost := |entries[n]| + if kept == [] then 0 else 1;
      assert entries[..n + 1] == kept + [entries[n]];
      JoinBack(kept, entries[n]);
      if used + cost > budget {
        forall k | n < k <= |entries|
          ensures |Join(entries[..k])| > budget
        {
          PrefixGrows(entries, n + 1, k);
        }
        return;
      }
      kept := kept + [entries[n]];
      used := used + cost;
    }
  }

  // ----- the instructions ---------------------------------------------------------------

  const FIRST_MESSAGE :=
    "Conversation state: this is the first supplied message. Do not invent earlier conversation context."
  const CONTINUATION :=
    "Conversation state: earlier messages are supplied. Interpret the latest "
    + "user message as a continuation when the history supports that reading."

  /** The fixed texts of a request: the memory frame, the capability manifest, the dialogue rules
      and the two conversation-state hints. */
  datatype Texts = Texts(header: string, footer: string, manifest: string, rules: string, first: string,
                         continuation: string)

  predicate TextsFit(x: Texts) {
    x.footer != "" && !IsSpace(x.footer[|x.footer| - 1]) && |x.first| <= |x.continuation|
  }

  lemma ActualTextsFit(manifest: string, rules: string)
    ensures TextsFit(Texts(HEADER, FOOTER, manifest, rules, FIRST_MESSAGE, CONTINUATION))
  {
    assert |FIRST_MESSAGE| == 99 && |CONTINUATION| == 142;
    assert |FOOTER| == 64 && FOOTER[63] == '.';
  }

  function MemoryBlock(x: Texts, entries: seq<string>): string {
    if entries == [] then "" else x.header + Join(entries) + x.footer
  }

  function BuildInstructions(x: Texts, fixed: string, entries: seq<string>, messages: nat): string {
    StripRight(StripRight(fixed) + "\n\n" + StripRight(x.manifest) + MemoryBlock(x, entries))
      + "\n\n" + StripRight(x.rules) + "\n\n" + (if messages > 1 then x.continuation else x.first)
  }

  /** A request before trimming: what may be kept and what must be. */
  datatype Request = Request(texts: Texts, fixed: string, memories: seq<string>, history: seq<Message>,
                             current: seq<Message>)

  function Messages(q: Request, h: nat): seq<Message>
    requires h <= |q.history|
  {
    Newest(q.history, h) + q.current
  }

  /** The size of the request that keeps the newest `h` messages and the first `m` memories. */
  function Total(q: Request, h: nat, m: nat): nat
    requires h <= |q.history| && m <= |q.memories|
  {
    |BuildInstructions(q.texts, q.fixed, q.memories[..m], |Messages(q, h)|)| + Costs(Messages(q, h))
  }

  lemma StripKeepsEnd(s: string, end: string)
    requires end != "" && !IsSpace(end[|end| - 1])
    ensures StripRight(s + end) == s + end
  {
    assert (s + end)[|s + end| - 1] == end[|end| - 1];
  }

  /** A memory block never shortens the instructions. */
  lemma BlockNeverShortens(x: Texts, head: string, entries: seq<string>)
    requires TextsFit(x)
    ensures |StripRight(head + MemoryBlock(x, []))| <= |StripRight(head + MemoryBlock(x, entries))|
  {
    assert head + "" == head;
    if entries != [] {
      assert head + MemoryBlock(x, entries) == (head + x.header + Join(entries)) + x.footer;
      StripKeepsEnd(head + x.header + Join(entries), x.footer);
    }
  }

  lemma {:induction false} CostsAppend(a: seq<Message>, b: seq<Message>)
    ensures Costs(a + b) == Costs(a) + Costs(b)
  {
    if a == [] {
      assert a + b == b;
    } else {
      assert (a + b)[0] == a[0] && (a + b)[1..] == a[1..] + b;
      CostsAppend(a[1..], b);
    }
  }

  /** Keeping nothing is the smallest request. */
  lemma NothingIsSmallest(q: Request, h: nat, m: nat)
    requires TextsFit(q.texts) && h <= |q.history| && m <= |q.memories|
    ensures Total(q, 0, 0) <= Total(q, h, m)
  {
    var head := StripRight(q.fixed) + "\n\n" + StripRight(q.texts.manifest);
    assert q.memories[..0] == [];
    BlockNeverShortens(q.texts, head, q.memories[..m]);
    assert Newest(q.history, 0) == [];
    CostsAppend(Newest(q.history, h), q.current);
    CostsAppend([], q.current);
  }

  // ----- trimming -----------------------------------------------------------------------------

  /** The size of every smaller request. */
  type Sizes = (nat, nat) -> int

  function SizesOf(q: Request): Sizes {
    (h: nat, m: nat) => if h <= |q.history| && m <= |q.memories| then Total(q, h, m) else 0
  }

  /** From at most `hCap` messages and `mCap` memories: with any history kept, all capped memories
      are kept and the suffix is the longest that fits; otherwise no history fits beside them and
      the memory prefix is the longest that fits alone. */
  ghost predicate BestTrim(size: Sizes, budget: int, hCap: nat, mCap: nat, h: nat, m: nat) {
    && h <= hCap && m <= mCap && size(h, m) <= budget
    && (h > 0 ==> m == mCap)
    && (forall k :: h < k <= hCap ==> size(k, mCap) > budget)
    && (h == 0 ==> forall k :: m < k <= mCap ==> size(0, k) > budget)
  }

  /** Drops the oldest history first, then the lowest-ranked memories. */
  method Trim(size: Sizes, budget: int, hCap: nat, mCap: nat) returns (fits: bool, h: nat, m: nat)
    requires forall h: nat, m: nat :: h <= hCap && m <= mCap ==> size(0, 0) <= size(h, m)
    ensures fits <==> size(0, 0) <= budget
    ensures fits ==> BestTrim(size, budget, hCap, mCap, h, m)
  {
    h, m := hCap, mCap;
    var total := size(h, m);
    while total > budget && h > 0
      invariant h <= hCap && total == size(h, mCap)
      invariant forall k :: h < k <= hCap ==> size(k, mCap) > budget
      decreases h
    {
      h := h - 1;
      total := size(h, m);
    }
    while total > budget && m > 0
      invariant m <= mCap && total == size(h, m) && (h > 0 ==> m == mCap && total <= budget)
      invariant h == 0 ==> forall k :: m < k <= mCap ==> size(0, k) > budget
      decreases m
    {
      m := m - 1;
      total := size(h, m);
    }
    fits := total <= budget;
  }

  datatype Diagnostics = Diagnostics(
    originalHistory: nat, keptHistory: nat, droppedHistory: int,
    originalMemories: nat, keptMemories: nat, droppedMemories: int,
    instructionCharacters: nat, messageCharacters: nat, totalCharacters: nat)

  datatype Prepared = Prepared(messages: seq<Message>, instructions: string, diagnostics: Diagnostics)

  /** The last message is the current one; the rest is history. */
  function RequestFrom(x: Texts, fixed: string, memories: seq<string>, messages: seq<Message>): Request {
    var n := |messages|;
    if n == 0 then Request(x, fixed, memories, [], [])
      else Request(x, fixed, memories, messages[..n - 1], messages[n - 1..])
  }

  function RequestOf(x: Texts, base: string, messages: seq<Message>): Request {
    var parts := SplitContext(x.header, x.footer, base);
    RequestFrom(x, parts.0, parts.1, messages)
  }

  function AtLeastZero(n: int): nat {
    if n < 0 then 0 else n
  }

  /** The prepared request keeps a suffix of the history, the whole current message and a prefix
      of the ranked memories, chosen by the caps `hCap`, `mCap` and the total budget. */
  ghost predicate Prepares(q: Request, total: int, history: int, memory: int, p: Prepared, hCap: nat, mCap: nat,
                           h: nat, m: nat) {
    && LongestSuffix(q.history, AtLeastZero(history), hCap) && LongestPrefix(q.memories, AtLeastZero(memory), mCap)
    && BestTrim(SizesOf(q), total, hCap, mCap, h, m)
    && p.messages == Newest(q.history, h) + q.current
    && p.instructions == BuildInstructions(q.texts, q.fixed, q.memories[..m], |p.messages|)
    && p.diagnostics == Diagnostics(|q.history|, h, |q.history| - h, |q.memories|, m, |q.memories| - m,
                                    |p.instructions|, Costs(p.messages), |p.instructions| + Costs(p.messages))
  }

  method PrepareRequest(q: Request, total: int, history: int, memory: int)
    returns (r: Option<Prepared>, ghost hCap: nat, ghost mCap: nat, h: nat, m: nat)
    requires TextsFit(q.texts)
    ensures r.None? <==> Total(q, 0, 0) > total
    ensures r.Some? ==> Prepares(q, total, history, memory, r.value, hCap, mCap, h, m)
  {
    var selectedHistory := SelectRecentHistory(q.history, AtLeastZero(history));
    var selectedMemories := SelectRankedMemories(q.memories, AtLeastZero(memory));
    hCap, mCap := |selectedHistory|, |selectedMemories|;
    forall h: nat, m: nat | h <= hCap && m <= mCap
      ensures SizesOf(q)(0, 0) <= SizesOf(q)(h, m)
    {
      NothingIsSmallest(q, h, m);
    }
    var fits;
    fits, h, m := Trim(SizesOf(q), total, |selectedHistory|, |selectedMemories|);
    if !fits {
      return None, hCap, mCap, h, m;
    }
    var kept := Messages(q, h);
    var instructions := BuildInstructions(q.texts, q.fixed, q.memories[..m], |kept|);
    r := Some(Prepared(kept, instructions,
      Diagnostics(|q.history|, h, |q.history| - h, |q.memories|, m, |q.memories| - m,
                  |instructions|, Costs(kept), |instructions| + Costs(kept))));
  }

  /** Fails exactly when the fixed text and the current message alone do not fit. */
  method PrepareModelInput(x: Texts, base: string, messages: seq<Message>, total: int, history: int, memory: int)
    returns (r: Option<Prepared>, ghost hCap: nat, ghost mCap: nat, h: nat, m: nat)
    requires TextsFit(x)
    ensures r.None? <==> Total(RequestOf(x, base, messages), 0, 0) > total
    ensures r.Some? ==> Prepares(RequestOf(x, base, messages), total, history, memory, r.value, hCap, mCap, h, m)
  {
    var fixed, entries := SplitMemoryContext(x.header, x.footer, base);
    r, hCap, mCap, h, m := PrepareRequest(RequestFrom(x, fixed, entries, messages), total, history, memory);
  }

  /** Every prepared request is within all three budgets. */
  lemma PreparedWithinBudgets(q: Request, total: int, history: nat, memory: nat, p: Prepared, hCap: nat, mCap: nat,
                              h: nat, m: nat)
    requires Prepares(q, total, history, memory, p, hCap, mCap, h, m)
    ensures p.diagnostics.totalCharacters <= total
    ensures Costs(Newest(q.history, h)) <= history && |Join(q.memories[..m])| <= memory
    ensures |p.messages| >= |q.current| && p.messages[|p.messages| - |q.current|..] == q.current
  {
    NewestGrows(q.history, h, hCap);
    PrefixGrows(q.memories, m, mCap);
  }

  /** A recoverable memory list reaches the budgeter entry by entry. */
  lemma RenderedRequest(x: Texts, base: string, ms: seq<Memory>, messages: seq<Message>)
    requires FirstFrom(base, x.header, 0) == None && FirstFrom(base + x.header, x.header, 0) == Some(|base|)
    requires Recoverable(Entries(ms))
    ensures RequestOf(x, Render(base, x.header, x.footer, ms), messages).memories == Entries(ms)
    ensures RequestOf(x, Render(base, x.header, x.footer, ms), messages).fixed == StripRight(base)
  {
    SplitUndoesRender(base, x.header, x.footer, ms);
  }

  // ----- what the model is sent --------------------------------------------------------------------

  function Transcript(ms: seq<Message>): string {
    if ms == [] then "" else ms[0].role + ms[0].content + Transcript(ms[1..])
  }

  /** The cost of messages is the number of characters of their roles and contents. */
  lemma {:induction false} CostsAreCharacters(ms: seq<Message>)
    ensures Costs(ms) == |Transcript(ms)|
  {
    if ms != [] {
      CostsAreCharacters(ms[1..]);
    }
  }

  /** `part` stands in `s` at position `at`. */
  ghost predicate Holds(s: string, part: string, at: nat) {
    at + |part| <= |s| && s[at..at + |part|] == part
  }

  ghost predicate Contains(s: string, part: string) {
    exists at :: Holds(s, part, at)
  }

  lemma ContainsWithin(before: string, part: string, after: string)
    ensures Contains(before + part + after, part)
  {
    var s := before + part + after;
    assert s[|before|..|before| + |part|] == part;
    assert Holds(s, part, |before|);
  }

  lemma {:induction false} StripRightKeepsPrefix(prefix: string, rest: string)
    requires prefix != "" ==> !IsSpace(prefix[|prefix| - 1])
    ensures |prefix| <= |StripRight(prefix + rest)| && StripRight(prefix + rest)[..|prefix|] == prefix
  {
    var s := prefix + rest;
    if rest == "" {
      assert s == prefix;
    } else if IsSpace(s[|s| - 1]) {
      assert s[..|s| - 1] == prefix + rest[..|rest| - 1];
      StripRightKeepsPrefix(prefix, rest[..|rest| - 1]);
    }
  }

  /** What follows the capability manifest and the memories. */
  function Closing(x: Texts, messages: nat): string {
    "\n\n" + StripRight(x.rules) + "\n\n" + (if messages > 1 then x.continuation else x.first)
  }

  lemma InstructionsParts(x: Texts, fixed: string, entries: seq<string>, messages: nat)
    ensures BuildInstructions(x, fixed, entries, messages) ==
            StripRight(StripRight(fixed) + "\n\n" + StripRight(x.manifest) + MemoryBlock(x, entries))
            + Closing(x, messages)
  {
  }

  lemma StartHeld(start: string, a: string, b: string, c: string, tail: string)
    requires start != "" ==> !IsSpace(start[|start| - 1])
    ensures Holds(StripRight(start + a + b + c) + tail, start, 0)
  {
    assert start + a + b + c == start + (a + b + c);
    StripRightKeepsPrefix(start, a + b + c);
    var all := StripRight(start + a + b + c) + tail;
    assert all[..|start|] == StripRight(start + a + b + c)[..|start|];
  }

  lemma ManifestHeld(start: string, manifest: string, block: string, tail: string)
    requires manifest != "" ==> !IsSpace(manifest[|manifest| - 1])
    ensures Contains(StripRight(start + manifest + block) + tail, manifest)
  {
    var all := StripRight(start + manifest + block) + tail;
    if manifest == "" {
      assert Holds(all, manifest, 0);
    } else {
      var front := start + manifest;
      assert front[|front| - 1] == manifest[|manifest| - 1];
      StripRightKeepsPrefix(front, block);
      assert all[..|front|] == front;
      assert all[|start|..|start| + |manifest|] == front[|start|..] == manifest;
      assert Holds(all, manifest, |start|);
    }
  }

  lemma BlockHeld(front: string, header: string, body: string, footer: string, tail: string)
    requires footer != "" && !IsSpace(footer[|footer| - 1])
    ensures Contains(StripRight(front + (header + body + footer)) + tail, header + body + footer)
  {
    assert front + (header + body + footer) == (front + header + body) + footer;
    StripKeepsEnd(front + header + body, footer);
    ContainsWithin(front, header + body + footer, tail);
  }

  /** The instructions begin with the fixed text and hold the capability manifest. */
  lemma InstructionsBegin(x: Texts, fixed: string, entries: seq<string>, messages: nat)
    ensures Holds(BuildInstructions(x, fixed, entries, messages), StripRight(fixed), 0)
    ensures Contains(BuildInstructions(x, fixed, entries, messages), StripRight(x.manifest))
  {
    InstructionsParts(x, fixed, entries, messages);
    StartHeld(StripRight(fixed), "\n\n", StripRight(x.manifest), MemoryBlock(x, entries), Closing(x, messages));
    ManifestHeld(StripRight(fixed) + "\n\n", StripRight(x.manifest), MemoryBlock(x, entries), Closing(x, messages));
  }

  /** When memories are kept, the framed entries are in the instructions. */
  lemma InstructionsHoldMemories(x: Texts, fixed: string, entries: seq<string>, messages: nat)
    requires TextsFit(x) && entries != []
    ensures Contains(BuildInstructions(x, fixed, entries, messages), x.header + Join(entries) + x.footer)
  {
    InstructionsParts(x, fixed, entries, messages);
    BlockHeld(StripRight(fixed) + "\n\n" + StripRight(x.manifest), x.header, Join(entries), x.footer,
              Closing(x, messages));
  }

  lemma EndHeld(head: string, tail: string)
    ensures |tail| <= |head + tail| && (head + tail)[|head + tail| - |tail|..] == tail
  {
  }

  /** The instructions end with the rules and the hint that fits the number of messages sent. */
  lemma InstructionsEnd(x: Texts, fixed: string, entries: seq<string>, messages: nat)
    ensures var all := BuildInstructions(x, fixed, entries, messages);
            var end := "\n\n" + StripRight(x.rules) + "\n\n" + (if messages > 1 then x.continuation else x.first);
            |end| <= |all| && all[|all| - |end|..] == end
  {
    InstructionsParts(x, fixed, entries, messages);
    EndHeld(StripRight(StripRight(fixed) + "\n\n" + StripRight(x.manifest) + MemoryBlock(x, entries)),
            Closing(x, messages));
  }

  lemma SuffixOfSuffix(messages: seq<Message>, h: nat)
    requires messages != [] && h < |messages|
    ensures var n := |messages|;
            Newest(messages[..n - 1], h) + messages[n - 1..] == messages[n - 1 - h..]
  {
  }

  /** The messages sent are a suffix of those given, and end with the last of them. */
  lemma SentMessagesAreSuffix(x: Texts, base: string, messages: seq<Message>, total: int, history: int, memory: int,
                              p: Prepared, hCap: nat, mCap: nat, h: nat, m: nat)
    requires Prepares(RequestOf(x, base, messages), total, history, memory, p, hCap, mCap, h, m)
    ensures |p.messages| <= |messages| && p.messages == messages[|messages| - |p.messages|..]
    ensures messages != [] ==> p.messages != [] && p.messages[|p.messages| - 1] == messages[|messages| - 1]
    ensures |p.messages| == if messages == [] then 0 else h + 1
  {
    if messages != [] {
      SuffixOfSuffix(messages, h);
    }
  }

  /** From rendered memories to the request: the kept ones, the highest-ranked first, arrive framed and word for word,
      after the base instructions. */
  lemma MemoriesReachTheModel(x: Texts, base: string, ms: seq<Memory>, messages: seq<Message>, total: int,
                              history: int, memory: int, p: Prepared, hCap: nat, mCap: nat, h: nat, m: nat)
    requires TextsFit(x) && Recoverable(Entries(ms))
    requires FirstFrom(base, x.header, 0) == None && FirstFrom(base + x.header, x.header, 0) == Some(|base|)
    requires Prepares(RequestOf(x, Render(base, x.header, x.footer, ms), messages), total, history, memory, p, hCap,
                      mCap, h, m)
    ensures m <= |ms| && Holds(p.instructions, StripRight(base), 0)
    ensures m > 0 ==> Contains(p.instructions, x.header + Join(Entries(ms[..m])) + x.footer)
  {
    RenderedRequest(x, base, ms, messages);
    EntriesPrefix(ms, m);
    StripRightTwice(base);
    InstructionsBegin(x, StripRight(base), Entries(ms[..m]), |p.messages|);
    if m > 0 {
      InstructionsHoldMemories(x, StripRight(base), Entries(ms[..m]), |p.messages|);
    }
  }

  lemma EntriesPrefix(ms: seq<Memory>, m: nat)
    requires m <= |ms|
    ensures Entries(ms)[..m] == Entries(ms[..m])
  {
  }

  lemma StripRightTwice(s: string)
    ensures StripRight(StripRight(s)) == StripRight(s)
  {
  }
}
