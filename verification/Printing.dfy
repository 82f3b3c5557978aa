/** How many bytes the JSON library writes for texts and numbers, and which values it writes at all. */
module Printing {
  import opened PyText
  import opened Json

  function Utf8Width(c: char): (n: nat)
    ensures 1 <= n <= 4
  {
    if c <= '\U{007F}' then 1 else if c <= '\U{07FF}' then 2 else if c <= '\U{FFFF}' then 3 else 4
  }

  function Utf8Length(s: string): nat {
    if s == "" then 0 else Utf8Length(s[..|s| - 1]) + Utf8Width(s[|s| - 1])
  }

  /** Nonblank, within the byte limit and free of control characters once stripped. */
  predicate BoundedText(s: string, limit: nat) {
    var t := Strip(s);
    t != "" && Utf8Length(t) <= limit && forall i :: 0 <= i < |t| ==> t[i] >= ' ' && t[i] != '\U{007F}'
  }

  lemma StrippedStaysBounded(s: string, limit: nat)
    requires BoundedText(s, limit)
    ensures BoundedText(Strip(s), limit) && Strip(s) != ""
  {
    StripIdempotent(s);
  }

  // ----- numbers in decimal ------------------------------------------------------------

  function Digit(d: nat): char
    requires d < 10
  {
    (('0' as int) + d) as char
  }

  function NatText(n: nat): string {
    if n < 10 then [Digit(n)] else NatText(n / 10) + [Digit(n % 10)]
  }

  function IntText(n: int): string {
    if n < 0 then "-" + NatText(-n) else NatText(n)
  }

  /** The number that decimal digits stand for. */
  function ReadNat(s: string): nat {
    if s == "" || !('0' <= s[|s| - 1] <= '9') then 0
    else 10 * ReadNat(s[..|s| - 1]) + (s[|s| - 1] as int - '0' as int)
  }

  function ReadInt(s: string): int {
    if s != "" && s[0] == '-' then 0 - ReadNat(s[1..]) else ReadNat(s)
  }

  lemma {:induction false} NatTextReads(n: nat)
    ensures NatText(n) != "" && ReadNat(NatText(n)) == n && '0' <= NatText(n)[0] <= '9'
  {
    var front := NatText(n / 10);
    if n >= 10 {
      NatTextReads(n / 10);
      assert NatText(n)[..|NatText(n)| - 1] == front;
    } else {
      assert NatText(n)[..0] == "";
    }
  }

  /** Reading the printed number gives it back. */
  lemma IntTextReads(n: int)
    ensures ReadInt(IntText(n)) == n
  {
    NatTextReads(if n < 0 then -n else n);
    if n < 0 {
      assert IntText(n)[1..] == NatText(-n);
    }
  }

  // ----- values in JSON ------------------------------------------------------------------

  /** Quotes, backslashes and control characters are escaped, everything else is written in UTF-8. */
  function CharPrint(c: char): (n: nat)
    ensures n >= 1
  {
    if c == '"' || c == '\\' then 2
    else if c >= ' ' then Utf8Width(c)
    else if c in {'\U{0008}', '\t', '\n', '\U{000C}', '\r'} then 2
    else 6
  }

  function CharsPrint(s: string): nat {
    if s == "" then 0 else CharsPrint(s[..|s| - 1]) + CharPrint(s[|s| - 1])
  }

  function TextPrint(s: string): nat {
    CharsPrint(s) + 2
  }

  /** No more than twice the byte limit and the quotes. */
  predicate PrintsWithin(s: string, limit: nat) {
    TextPrint(s) <= 2 * limit + 2
  }

  lemma {:induction false} CharsPrintAtMost(s: string)
    requires forall i :: 0 <= i < |s| ==> s[i] >= ' '
    ensures CharsPrint(s) <= 2 * Utf8Length(s)
  {
    if s != "" {
      CharsPrintAtMost(s[..|s| - 1]);
    }
  }

  lemma {:induction false} CharsPrintAtLeast(s: string)
    ensures CharsPrint(s) >= |s|
  {
    if s != "" {
      CharsPrintAtLeast(s[..|s| - 1]);
    }
  }

  /** Bounded text without surrounding whitespace prints within its limit. */
  lemma StrippedPrintsWithin(s: string, limit: nat)
    requires BoundedText(s, limit)
    ensures PrintsWithin(Strip(s), limit)
  {
    CharsPrintAtMost(Strip(s));
  }

  const MAX_DIGITS: nat := 4300

  /** Integers beyond the interpreter's digit limit cannot be written, and nothing that holds one can. */
  predicate Serializable(v: Value) {
    match v
    case Int(n) => |NatText(if n < 0 then -n else n)| <= MAX_DIGITS
    case Arr(items) => forall i :: 0 <= i < |items| ==> Serializable(items[i])
    case Obj(fields) => forall k :: k in fields ==> Serializable(fields[k])
    case _ => true
  }

  /** Bytes of a value; `library` says how many a float, an array or an object takes. */
  function ValuePrint(library: Value -> nat, v: Value): nat {
    match v
    case Null => 4
    case Bool(flag) => if flag then 4 else 5
    case Int(n) => |IntText(n)|
    case Str(s) => TextPrint(s)
    case _ => library(v)
  }

  /** The types whose values print within a fixed number of bytes. */
  const SCALARS: set<string> := {"integer", "number", "boolean", "null"}

  const MAX_SCALAR: nat := 4301

  ghost predicate FloatsAreShort(library: Value -> nat) {
    forall x: real :: library(Num(x)) <= 24
  }
}
