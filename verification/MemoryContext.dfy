/** Rendering ranked memories into the instructions and splitting them out again
    (backend/main.py, backend/model_input.py). */
module MemoryContext {
  import opened PyText

  const HEADER := "\nRelevant long-term memory context:\n"
  const FOOTER := "\nUse this context only when it helps answer the current request."

  // ----- searching and joining ------------------------------------------------------

  predicate Occurs(s: string, pattern: string, i: nat) {
    i + |pattern| <= |s| && s[i..i + |pattern|] == pattern
  }

  /** The first occurrence at or after `from`. */
  function FirstFrom(s: string, pattern: string, from: nat): (r: Option<nat>)
    ensures r.Some? ==> from <= r.value && Occurs(s, pattern, r.value)
    ensures forall i :: from <= i < (if r.Some? then r.value else |s| + 1) ==> !Occurs(s, pattern, i)
    decreases |s| + 1 - from
  {
    if from > |s| then None
    else if Occurs(s, pattern, from) then Some(from)
    else FirstFrom(s, pattern, from + 1)
  }

  /** The last occurrence before `bound`. */
  function LastBefore(s: string, pattern: string, bound: nat): (r: Option<nat>)
    ensures r.Some? ==> r.value < bound && Occurs(s, pattern, r.value)
    ensures forall i :: (if r.Some? then r.value + 1 else 0) <= i < bound ==> !Occurs(s, pattern, i)
  {
    if bound == 0 then None
    else if Occurs(s, pattern, bound - 1) then Some(bound - 1)
    else LastBefore(s, pattern, bound - 1)
  }

  /** The texts joined by newlines. */
  function Join(texts: seq<string>): string {
    if texts == [] then ""
    else if |texts| == 1 then texts[0]
    else Join(texts[..|texts| - 1]) + "\n" + texts[|texts| - 1]
  }

  lemma JoinBack(texts: seq<string>, last: string)
    ensures Join(texts + [last]) == if texts == [] then last else Join(texts) + "\n" + last
  {
    assert (texts + [last])[..|texts|] == texts;
  }

  lemma {:induction false} JoinFront(first: string, texts: seq<string>)
    requires texts != []
    ensures Join([first] + texts) == first + "\n" + Join(texts)
  {
    var front := texts[..|texts| - 1];
    assert texts == front + [texts[|texts| - 1]];
    assert [first] + texts == ([first] + front) + [texts[|texts| - 1]];
    JoinBack([first] + front, texts[|texts| - 1]);
    if front != [] {
      JoinFront(first, front);
    } else {
      assert [first] + front == [first];
    }
  }

  // ----- lines ---------------------------------------------------------------------------

  /** The characters at which text is broken into lines. */
  predicate IsBreak(c: char) {
    || '\U{000A}' <= c <= '\U{000D}' || '\U{001C}' <= c <= '\U{001E}'
    || c == '\U{0085}' || c == '\U{2028}' || c == '\U{2029}'
  }

  function LineEnd(s: string): (n: nat)
    ensures n <= |s| && (n < |s| ==> IsBreak(s[n]))
    ensures forall i :: 0 <= i < n ==> !IsBreak(s[i])
  {
    if s == "" || IsBreak(s[0]) then 0 else 1 + LineEnd(s[1..])
  }

  /** A carriage return and the newline after it are one break. */
  function BreakWidth(s: string, i: nat): nat
    requires i < |s|
  {
    if s[i] == '\r' && i + 1 < |s| && s[i + 1] == '\n' then 2 else 1
  }

  function SplitLines(s: string): seq<string>
    decreases |s|
  {
    if s == "" then []
    else
      var n := LineEnd(s);
      if n == |s| then [s] else [s[..n]] + SplitLines(s[n + BreakWidth(s, n)..])
  }

  predicate Unbroken(s: string) {
    forall i :: 0 <= i < |s| ==> !IsBreak(s[i])
  }

  /** Every break in the text is a newline. */
  predicate OnlyNewlines(s: string) {
    forall i :: 0 <= i < |s| && IsBreak(s[i]) ==> s[i] == '\n'
  }

  predicate EndsInNewline(s: string) {
    s != "" && s[|s| - 1] == '\n'
  }

  predicate AllUnbroken(lines: seq<string>) {
    forall i :: 0 <= i < |lines| ==> Unbroken(lines[i])
  }

  lemma FirstLineUnbroken(s: string)
    ensures Unbroken(s[..LineEnd(s)])
  {
  }

  lemma UnbrokenFront(line: string, lines: seq<string>)
    requires Unbroken(line) && AllUnbroken(lines)
    ensures AllUnbroken([line] + lines)
  {
  }

  lemma {:induction false} LinesAreUnbroken(s: string)
    ensures AllUnbroken(SplitLines(s)) && (s != "" ==> SplitLines(s) != [])
    decreases |s|
  {
    if s != "" {
      var n := LineEnd(s);
      FirstLineUnbroken(s);
      if n < |s| {
        var rest := s[n + BreakWidth(s, n)..];
        LinesAreUnbroken(rest);
        UnbrokenFront(s[..n], SplitLines(rest));
      } else {
        assert s[..n] == s;
      }
    }
  }

  function Chomp(s: string): string {
    if EndsInNewline(s) then s[..|s| - 1] else s
  }

  lemma CutAtNewline(s: string, n: nat)
    requires n < |s| && s[n] == '\n' && OnlyNewlines(s)
    ensures s == s[..n] + "\n" + s[n + 1..] && OnlyNewlines(s[n + 1..])
  {
    var rest := s[n + 1..];
    assert forall i :: 0 <= i < |rest| ==> rest[i] == s[n + 1 + i];
  }

  lemma NewlineBreak(s: string, n: nat)
    requires n < |s| && OnlyNewlines(s) && IsBreak(s[n])
    ensures s[n] == '\n' && BreakWidth(s, n) == 1
  {
  }

  lemma SplitAtBreak(s: string, n: nat, width: nat)
    requires n == LineEnd(s) < |s| && width == BreakWidth(s, n)
    ensures SplitLines(s) == [s[..n]] + SplitLines(s[n + width..])
  {
  }

  /** Joining the lines restores the text, but for one newline at its end. */
  lemma {:induction false} LinesRejoin(s: string)
    requires OnlyNewlines(s) && s != ""
    ensures Join(SplitLines(s)) == Chomp(s)
    decreases |s|, 0
  {
    var n := LineEnd(s);
    if n == |s| {
      assert SplitLines(s) == [s];
    } else {
      NewlineBreak(s, n);
      SplitAtBreak(s, n, 1);
      CutAtNewline(s, n);
      RejoinStep(s[..n], s[n + 1..]);
    }
  }

  lemma {:induction false} RejoinStep(line: string, rest: string)
    requires OnlyNewlines(rest)
    ensures Join([line] + SplitLines(rest)) == Chomp(line + "\n" + rest)
    decreases |rest|, 1
  {
    if rest == "" {
      assert [line] + SplitLines(rest) == [line];
      assert Chomp(line + "\n" + rest) == line;
    } else {
      LinesAreUnbroken(rest);
      LinesRejoin(rest);
      JoinFront(line, SplitLines(rest));
      ChompTail(line, rest);
    }
  }

  lemma ChompTail(line: string, rest: string)
    requires rest != ""
    ensures Chomp(line + "\n" + rest) == line + "\n" + Chomp(rest)
  {
    var s := line + "\n" + rest;
    assert s[|s| - 1] == rest[|rest| - 1];
  }

  // ----- grouping lines into entries ----------------------------------------------------------

  /** The marker that begins a memory entry. */
  predicate IsMarked(s: string) {
    |s| >= 3 && s[0] == '-' && s[1] == ' ' && s[2] == '['
  }

  /** Some line after the first begins with the marker. */
  predicate Continues(s: string) {
    exists i :: 0 <= i < |s| && MarkedAfter(s, i)
  }

  predicate MarkedAfter(s: string, i: nat)
    requires i < |s|
  {
    s[i] == '\n' && IsMarked(s[i + 1..])
  }

  datatype Grouping = Grouping(entries: seq<string>, current: seq<string>)

  function Absorb(g: Grouping, line: string): Grouping {
    if IsMarked(line) && g.current != [] then Grouping(g.entries + [Join(g.current)], [line])
    else g.(current := g.current + [line])
  }

  function Grouped(lines: seq<string>): Grouping {
    if lines == [] then Grouping([], [])
    else Absorb(Grouped(lines[..|lines| - 1]), lines[|lines| - 1])
  }

  function Finish(g: Grouping): seq<string> {
    if exists i :: 0 <= i < |g.current| && !IsBlank(g.current[i]) then g.entries + [Join(g.current)] else g.entries
  }

  /** Rendered instructions cut at the first header and the last footer after it. */
  datatype Parts = Whole | Cut(prefix: string, body: string, trailing: string)

  function CutContext(header: string, footer: string, instructions: string): Parts {
    match FirstFrom(instructions, header, 0)
    case None => Whole
    case Some(i) =>
      var remainder := instructions[i + |header|..];
      match LastBefore(remainder, footer, |remainder| + 1)
      case None => Whole
      case Some(j) => Cut(instructions[..i], remainder[..j], remainder[j + |footer|..])
  }

  function FixedText(prefix: string, trailing: string): string {
    if Strip(trailing) == "" then StripRight(prefix) else StripRight(prefix) + "\n" + Strip(trailing)
  }

  /** The fixed text and the ranked entries of rendered instructions. */
  function SplitContext(header: string, footer: string, instructions: string): (string, seq<string>) {
    match CutContext(header, footer, instructions)
    case Whole => (StripRight(instructions), [])
    case Cut(prefix, body, trailing) => (FixedText(prefix, trailing), Finish(Grouped(SplitLines(body))))
  }

  /** Whether some line survives stripping. */
  method AnyVisible(lines: seq<string>) returns (visible: bool)
    ensures visible <==> exists i :: 0 <= i < |lines| && !IsBlank(lines[i])
  {
    for k := 0 to |lines|
      invariant forall i :: 0 <= i < k ==> IsBlank(lines[i])
    {
      if !IsBlank(lines[k]) {
        return true;
      }
    }
    visible := false;
  }

  method GroupEntries(text: string) returns (entries: seq<string>)
    ensures entries == Finish(Grouped(SplitLines(text)))
  {
    var lines := SplitLines(text);
    var current: seq<string> := [];
    entries := [];
    for k := 0 to |lines|
      invariant Grouping(entries, current) == Grouped(lines[..k])
    {
      assert lines[..k + 1][..k] == lines[..k];
      if IsMarked(lines[k]) && current != [] {
        entries := entries + [Join(current)];
        current := [lines[k]];
      } else {
        current := current + [lines[k]];
      }
    }
    assert lines[..|lines|] == lines;
    var visible := AnyVisible(current);
    if visible {
      entries := entries + [Join(current)];
    }
  }

  /** Separates the ranked memory block from the fixed instructions. */
  method SplitMemoryContext(header: string, footer: string, instructions: string)
    returns (fixed: string, entries: seq<string>)
    ensures (fixed, entries) == SplitContext(header, footer, instructions)
  {
    match CutContext(header, footer, instructions)
    case Whole => fixed, entries := StripRight(instructions), [];
    case Cut(prefix, body, trailing) =>
      entries := GroupEntries(body);
      fixed := FixedText(prefix, trailing);
  }

  // ----- blocks: what grouping produces, and why it is the only reading ------------------------

  /** One marked line followed by unmarked lines. */
  predicate IsBlock(s: string) {
    IsMarked(s) && OnlyNewlines(s) && !Continues(s)
  }

  predicate AllBlocks(texts: seq<string>) {
    forall i :: 0 <= i < |texts| ==> IsBlock(texts[i])
  }

  lemma LineIsBlock(line: string)
    requires Unbroken(line) && IsMarked(line)
    ensures IsBlock(line)
  {
  }

  lemma BlockGrows(block: string, line: string)
    requires IsBlock(block) && Unbroken(line) && !IsMarked(line)
    ensures IsBlock(block + "\n" + line)
  {
    var s := block + "\n" + line;
    assert forall i :: 0 <= i < |line| ==> s[|block| + 1 + i] == line[i];
    assert s[|block| + 1..] == line;
    if i :| 0 <= i < |s| && MarkedAfter(s, i) {
      if i < |block| {
        MarkInsideBlock(block, line, i);
        assert false;
      }
    }
  }

  lemma MarkInsideBlock(block: string, line: string, i: nat)
    requires i < |block| && MarkedAfter(block + "\n" + line, i)
    ensures MarkedAfter(block, i)
  {
    var s := block + "\n" + line;
    var t := s[i + 1..];
    assert t[0] == s[i + 1] && t[1] == s[i + 2] && t[2] == s[i + 3];
    assert s[|block|] == '\n';
    assert forall j :: 0 <= j < |block| ==> s[j] == block[j];
    assert i + 3 < |block|;
  }

  /** What is known about the grouping of some lines. */
  ghost predicate GroupsLines(g: Grouping, lines: seq<string>) {
    && g.current != [] && IsMarked(g.current[0]) && IsBlock(Join(g.current)) && AllBlocks(g.entries)
    && Join(g.entries + [Join(g.current)]) == Join(lines)
  }

  lemma NewEntryKeepsGroups(g: Grouping, lines: seq<string>, line: string)
    requires GroupsLines(g, lines) && Unbroken(line) && lines != [] && IsMarked(line)
    ensures GroupsLines(Absorb(g, line), lines + [line])
  {
    JoinBack(lines, line);
    LineIsBlock(line);
    JoinBack(g.entries + [Join(g.current)], line);
    assert Join([line]) == line;
  }

  lemma ContinuationKeepsGroups(g: Grouping, lines: seq<string>, line: string)
    requires GroupsLines(g, lines) && Unbroken(line) && lines != [] && !IsMarked(line)
    ensures GroupsLines(Absorb(g, line), lines + [line])
  {
    var block := Join(g.current);
    JoinBack(lines, line);
    JoinBack(g.current, line);
    BlockGrows(block, line);
    JoinBack(g.entries, block);
    JoinBack(g.entries, block + "\n" + line);
  }

  /** Grouping cuts the joined lines into blocks. */
  lemma {:induction false} GroupedIntoBlocks(lines: seq<string>)
    requires lines != [] && IsMarked(lines[0]) && AllUnbroken(lines)
    ensures GroupsLines(Grouped(lines), lines)
  {
    var front, last := lines[..|lines| - 1], lines[|lines| - 1];
    assert lines == front + [last];
    if front == [] {
      LineIsBlock(last);
      assert Grouped(lines) == Grouping([], [last]);
      assert [] + [last] == [last] && Join([last]) == last;
    } else {
      GroupedIntoBlocks(front);
      if IsMarked(last) {
        NewEntryKeepsGroups(Grouped(front), front, last);
      } else {
        ContinuationKeepsGroups(Grouped(front), front, last);
      }
    }
  }

  lemma LongerBlockContinues(a: seq<string>, b: seq<string>)
    requires a != [] && b != [] && Join(a) == Join(b) && IsMarked(a[|a| - 1])
    requires |a[|a| - 1]| < |b[|b| - 1]|
    ensures Continues(b[|b| - 1])
  {
    var x, y, text := a[|a| - 1], b[|b| - 1], Join(a);
    assert text[|text| - |x|..] == x && text[|text| - |y|..] == y;
    var i := |y| - |x| - 1;
    assert |a| > 1;
    assert text[|text| - |x| - 1] == '\n';
    assert y[i] == text[|text| - |y| + i];
    assert y[i + 1..] == x;
    assert MarkedAfter(y, i);
  }

  lemma OneJoin(a: seq<string>, b: seq<string>)
    requires a != [] && b != [] && Join(a) == Join(b) && a[|a| - 1] == b[|b| - 1]
    ensures |a| == 1 <==> |b| == 1
    ensures |a| > 1 ==> Join(a[..|a| - 1]) == Join(b[..|b| - 1])
  {
    var x := a[|a| - 1];
    if |a| > 1 {
      assert |Join(a)| == |Join(a[..|a| - 1])| + 1 + |x|;
      assert Join(a[..|a| - 1]) == Join(a)[..|Join(a)| - 1 - |x|];
    }
    if |b| > 1 {
      assert |Join(b)| == |Join(b[..|b| - 1])| + 1 + |x|;
      assert Join(b[..|b| - 1]) == Join(b)[..|Join(b)| - 1 - |x|];
    }
  }

  /** A text is a join of blocks in at most one way. */
  lemma {:induction false} BlocksUnique(a: seq<string>, b: seq<string>)
    requires AllBlocks(a) && AllBlocks(b) && a != [] && b != [] && Join(a) == Join(b)
    ensures a == b
    decreases |a|
  {
    var x, y := a[|a| - 1], b[|b| - 1];
    if |x| < |y| {
      LongerBlockContinues(a, b);
    } else if |y| < |x| {
      LongerBlockContinues(b, a);
    }
    assert |x| == |y|;
    assert x == Join(a)[|Join(a)| - |x|..] && y == Join(b)[|Join(b)| - |y|..];
    OneJoin(a, b);
    assert a == a[..|a| - 1] + [x] && b == b[..|b| - 1] + [y];
    if |a| > 1 {
      BlocksUnique(a[..|a| - 1], b[..|b| - 1]);
    }
  }

  // ----- the round trip ----------------------------------------------------------------------------

  /** Only newline breaks, no continuation line that looks like an entry, no newline at the very end. */
  predicate Recoverable(entries: seq<string>) {
    && (forall i :: 0 <= i < |entries| ==> OnlyNewlines(entries[i]) && !Continues(entries[i]))
    && (entries != [] ==> !EndsInNewline(entries[|entries| - 1]))
  }

  predicate AllMarked(entries: seq<string>) {
    forall i :: 0 <= i < |entries| ==> IsMarked(entries[i])
  }

  lemma {:induction false} JoinStarts(entries: seq<string>)
    requires entries != []
    ensures |Join(entries)| >= |entries[0]| && Join(entries)[..|entries[0]|] == entries[0]
  {
    if |entries| > 1 {
      JoinStarts(entries[..|entries| - 1]);
    }
  }

  lemma {:induction false} JoinOnlyNewlines(entries: seq<string>)
    requires forall i :: 0 <= i < |entries| ==> OnlyNewlines(entries[i])
    ensures OnlyNewlines(Join(entries))
  {
    if |entries| > 1 {
      JoinOnlyNewlines(entries[..|entries| - 1]);
    }
  }

  lemma MarkedFirstLine(s: string)
    requires IsMarked(s)
    ensures SplitLines(s) != [] && IsMarked(SplitLines(s)[0])
  {
    var n := LineEnd(s);
    assert !IsBreak(s[0]) && !IsBreak(s[1]) && !IsBreak(s[2]);
  }

  /** The entries read from marked text are blocks joining to its lines. */
  lemma EntriesRead(text: string)
    requires IsMarked(text)
    ensures var read := Finish(Grouped(SplitLines(text)));
            read != [] && AllBlocks(read) && Join(read) == Join(SplitLines(text))
  {
    var lines := SplitLines(text);
    LinesAreUnbroken(text);
    MarkedFirstLine(text);
    GroupedIntoBlocks(lines);
    var g := Grouped(lines);
    assert !IsSpace(g.current[0][0]);
    assert !IsBlank(g.current[0]);
  }

  lemma JoinEnds(entries: seq<string>)
    requires entries != [] && entries[|entries| - 1] != ""
    ensures Join(entries) != "" && EndsInNewline(Join(entries)) == EndsInNewline(entries[|entries| - 1])
  {
  }

  lemma JoinMarked(entries: seq<string>)
    requires entries != [] && IsMarked(entries[0])
    ensures IsMarked(Join(entries))
  {
    JoinStarts(entries);
    var text, first := Join(entries), entries[0];
    assert text[0] == text[..|first|][0] && text[1] == text[..|first|][1] && text[2] == text[..|first|][2];
  }

  /** Reading joined entries gives them back exactly when they are recoverable. */
  lemma EntriesRoundTrip(entries: seq<string>)
    requires entries != [] && AllMarked(entries)
    ensures Finish(Grouped(SplitLines(Join(entries)))) == entries <==> Recoverable(entries)
  {
    JoinMarked(entries);
    EntriesRead(Join(entries));
    if Recoverable(entries) {
      RecoverableIsRead(entries);
    }
    if Finish(Grouped(SplitLines(Join(entries)))) == entries {
      ReadIsRecoverable(entries);
    }
  }

  lemma RecoverableIsRead(entries: seq<string>)
    requires entries != [] && AllMarked(entries) && Recoverable(entries)
    ensures Finish(Grouped(SplitLines(Join(entries)))) == entries
  {
    JoinMarked(entries);
    EntriesRead(Join(entries));
    JoinEnds(entries);
    JoinOnlyNewlines(entries);
    LinesRejoin(Join(entries));
    assert AllBlocks(entries);
    BlocksUnique(Finish(Grouped(SplitLines(Join(entries)))), entries);
  }

  lemma ReadIsRecoverable(entries: seq<string>)
    requires entries != [] && AllMarked(entries) && Finish(Grouped(SplitLines(Join(entries)))) == entries
    ensures Recoverable(entries)
  {
    JoinMarked(entries);
    EntriesRead(Join(entries));
    JoinEnds(entries);
    assert forall i :: 0 <= i < |entries| ==> IsBlock(entries[i]);
    JoinOnlyNewlines(entries);
    LinesRejoin(Join(entries));
  }

  lemma FirstStaysFirst(base: string, header: string, rest: string)
    requires FirstFrom(base + header, header, 0) == Some(|base|)
    ensures FirstFrom(base + header + rest, header, 0) == Some(|base|)
  {
    var short, long := base + header, base + header + rest;
    forall i: nat | i < |base|
      ensures !Occurs(long, header, i)
    {
      assert !Occurs(short, header, i);
      assert long[i..i + |header|] == short[i..i + |header|];
    }
    assert long[|base|..|base| + |header|] == header;
    assert Occurs(long, header, |base|);
  }

  lemma LastAtEnd(text: string, footer: string)
    ensures LastBefore(text + footer, footer, |text + footer| + 1) == Some(|text|)
  {
    assert (text + footer)[|text|..|text| + |footer|] == footer;
    assert Occurs(text + footer, footer, |text|);
  }

  /** The cut is clean whatever header or footer text the body contains. */
  lemma CutUndoesFrame(base: string, header: string, footer: string, text: string)
    requires FirstFrom(base + header, header, 0) == Some(|base|)
    ensures CutContext(header, footer, base + header + text + footer) == Cut(base, text, "")
  {
    var all := base + header + text + footer;
    FirstStaysFirst(base, header, text + footer);
    assert all == base + header + (text + footer);
    assert all[..|base|] == base && all[|base| + |header|..] == text + footer;
    LastAtEnd(text, footer);
  }

  // ----- rendering ------------------------------------------------------------------------------------

  /** A retrieved memory; a missing project or type is empty. */
  datatype Memory = Memory(project: string, kind: string, content: string)

  function Entry(m: Memory): (r: string)
    ensures IsMarked(r)
  {
    "- [" + (if m.project == "" then "Global" else m.project) + " / "
      + (if m.kind == "" then "memory" else m.kind) + "] " + m.content
  }

  /** An entry names the memory's project and kind, or the defaults for blank ones, and ends with its content. */
  lemma EntryShows(m: Memory)
    ensures var project := if m.project == "" then "Global" else m.project;
            var prefix := "- [" + project + " / " + (if m.kind == "" then "memory" else m.kind) + "] ";
            |Entry(m)| == |prefix| + |m.content| && Entry(m)[..|prefix|] == prefix && Entry(m)[|prefix|..] == m.content
  {
  }

  function Entries(ms: seq<Memory>): (r: seq<string>)
    ensures |r| == |ms| && AllMarked(r)
  {
    seq(|ms|, i requires 0 <= i < |ms| => Entry(ms[i]))
  }

  function Render(base: string, header: string, footer: string, ms: seq<Memory>): string {
    if ms == [] then base else base + header + Join(Entries(ms)) + footer
  }

  lemma FixedAlone(base: string)
    ensures FixedText(base, "") == StripRight(base)
  {
    assert Strip("") == "";
  }

  lemma CutParts(instructions: string, header: string, footer: string, i: nat, j: nat)
    requires Occurs(instructions, header, i)
    requires var remainder := instructions[i + |header|..]; Occurs(remainder, footer, j)
    ensures var remainder := instructions[i + |header|..];
            instructions == instructions[..i] + header + (remainder[..j] + footer + remainder[j + |footer|..])
  {
    var remainder := instructions[i + |header|..];
    assert remainder == remainder[..j] + footer + remainder[j + |footer|..];
    assert instructions == instructions[..i] + header + remainder;
  }

  /** The pieces of a cut are the whole text. */
  lemma CutIsWhole(header: string, footer: string, instructions: string, prefix: string, body: string,
                   trailing: string)
    requires CutContext(header, footer, instructions) == Cut(prefix, body, trailing)
    ensures instructions == prefix + header + (body + footer + trailing)
  {
    var i := FirstFrom(instructions, header, 0).value;
    var remainder := instructions[i + |header|..];
    CutParts(instructions, header, footer, i, LastBefore(remainder, footer, |remainder| + 1).value);
  }

  /** Text after the footer is kept behind the text before the header, each stripped at the cut. */
  lemma TrailingTextIsKept(header: string, footer: string, instructions: string, prefix: string, body: string,
                           trailing: string)
    requires CutContext(header, footer, instructions) == Cut(prefix, body, trailing)
    ensures IsBlank(trailing) ==> SplitContext(header, footer, instructions).0 == StripRight(prefix)
    ensures !IsBlank(trailing) ==>
              SplitContext(header, footer, instructions).0 == StripRight(prefix) + "\n" + Strip(trailing)
  {
    BlankStripsToEmpty(trailing);
  }

  /** Splitting rendered instructions gives back the fixed text and the entries in rank order
      if and only if the entries are recoverable. */
  lemma SplitUndoesRender(base: string, header: string, footer: string, ms: seq<Memory>)
    requires FirstFrom(base, header, 0) == None && FirstFrom(base + header, header, 0) == Some(|base|)
    ensures SplitContext(header, footer, Render(base, header, footer, ms)) == (StripRight(base), Entries(ms)) <==>
              Recoverable(Entries(ms))
  {
    if ms != [] {
      CutUndoesFrame(base, header, footer, Join(Entries(ms)));
      FixedAlone(base);
      EntriesRoundTrip(Entries(ms));
    }
  }

  // ----- base instructions written as lines ---------------------------------------------------------

  /** Lines, each ended by a newline. */
  function Lined(lines: seq<string>): string {
    if lines == [] then "" else Lined(lines[..|lines| - 1]) + lines[|lines| - 1] + "\n"
  }

  /** A line without newlines that does not begin with the header's first letter. */
  predicate PlainLine(line: string, letter: char) {
    (forall i :: 0 <= i < |line| ==> line[i] != '\n') && (line != "" ==> line[0] != letter)
  }

  predicate PlainLines(lines: seq<string>, letter: char) {
    forall i :: 0 <= i < |lines| ==> PlainLine(lines[i], letter)
  }

  /** No newline before `n` is followed by the letter. */
  predicate NeverBegins(s: string, n: nat, letter: char) {
    forall i :: 0 <= i < n && i + 1 < |s| && s[i] == '\n' ==> s[i + 1] != letter
  }

  lemma LineAdds(s: string, line: string, letter: char)
    requires NeverBegins(s, |s|, letter) && PlainLine(line, letter) && letter != '\n'
    ensures NeverBegins(s + line + "\n", |s + line + "\n"|, letter)
  {
    var all := s + line + "\n";
    assert forall i :: 0 <= i < |s| ==> all[i] == s[i];
    assert forall i :: 0 <= i < |line| ==> all[|s| + i] == line[i];
  }

  lemma {:induction false} LinedNeverBegins(lines: seq<string>, letter: char)
    requires PlainLines(lines, letter) && letter != '\n'
    ensures NeverBegins(Lined(lines), |Lined(lines)|, letter)
  {
    if lines != [] {
      LinedNeverBegins(lines[..|lines| - 1], letter);
      LineAdds(Lined(lines[..|lines| - 1]), lines[|lines| - 1], letter);
    }
  }

  lemma NotHere(s: string, header: string, i: nat)
    requires |header| >= 2 && header[0] == '\n' && NeverBegins(s, i + 1, header[1])
    ensures !Occurs(s, header, i)
  {
    if i + |header| <= |s| {
      var w := s[i..i + |header|];
      assert w[0] == s[i] && w[1] == s[i + 1];
    }
  }

  lemma AbsentFrom(s: string, header: string)
    requires forall i: nat :: !Occurs(s, header, i)
    ensures FirstFrom(s, header, 0) == None
  {
  }

  lemma FirstIs(s: string, header: string, n: nat)
    requires Occurs(s, header, n) && forall i: nat :: i < n ==> !Occurs(s, header, i)
    ensures FirstFrom(s, header, 0) == Some(n)
  {
  }

  lemma CleanAlone(base: string, header: string)
    requires |header| >= 2 && header[0] == '\n' && NeverBegins(base, |base|, header[1])
    ensures FirstFrom(base, header, 0) == None
  {
    forall i: nat
      ensures !Occurs(base, header, i)
    {
      if i < |base| {
        NotHere(base, header, i);
      }
    }
    AbsentFrom(base, header);
  }

  lemma CleanBefore(base: string, header: string)
    requires |header| >= 2 && header[0] == '\n' && header[1] != '\n' && NeverBegins(base, |base|, header[1])
    ensures FirstFrom(base + header, header, 0) == Some(|base|)
  {
    var all := base + header;
    assert forall j :: 0 <= j < |base| ==> all[j] == base[j];
    assert NeverBegins(all, |base|, header[1]);
    forall i: nat | i < |base|
      ensures !Occurs(all, header, i)
    {
      NotHere(all, header, i);
    }
    HeaderAtEnd(base, header);
    FirstIs(all, header, |base|);
  }

  /** Base instructions no line of which begins with the header's first letter meet both conditions of the
      round trip. */
  lemma PlainBaseIsClean(lines: seq<string>, header: string)
    requires |header| >= 2 && header[0] == '\n' && header[1] != '\n' && PlainLines(lines, header[1])
    ensures var base := Lined(lines);
            FirstFrom(base, header, 0) == None && FirstFrom(base + header, header, 0) == Some(|base|)
  {
    LinedNeverBegins(lines, header[1]);
    CleanAlone(Lined(lines), header);
    CleanBefore(Lined(lines), header);
  }

  lemma HeaderAtEnd(base: string, header: string)
    ensures Occurs(base + header, header, |base|)
  {
    assert (base + header)[|base|..|base| + |header|] == header;
  }
}
