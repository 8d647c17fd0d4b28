/**
 * The parts of Python's `str` the repository relies on: `isspace`, `strip`,
 * `join`, `split(sep, maxsplit=1)`, `startswith`/`endswith`, `lower`, `repr`
 * and the decimal rendering of integers used inside f-strings.
 */
module Strings {
  import opened Wrappers

  /** `c.isspace()` in Python: the characters `str.strip()` and the regular expression `\s` treat as whitespace. */
  predicate IsSpace(c: char) {
    var n := c as int;
    (0x09 <= n <= 0x0d) || (0x1c <= n <= 0x20) || n == 0x85 || n == 0xa0 || n == 0x1680
    || (0x2000 <= n <= 0x200a) || n == 0x2028 || n == 0x2029 || n == 0x202f || n == 0x205f
    || n == 0x3000
  }

  predicate StartsWith(s: string, prefix: string) {
    |prefix| <= |s| && s[..|prefix|] == prefix
  }

  predicate EndsWith(s: string, suffix: string) {
    |suffix| <= |s| && s[|s| - |suffix|..] == suffix
  }

  /** `s.lstrip()`: the longest suffix of `s` that does not start with whitespace. */
  function TrimStart(s: string): (r: string)
    ensures |r| <= |s| && r == s[|s| - |r|..]
    ensures r == [] || !IsSpace(r[0])
    ensures forall i :: 0 <= i < |s| - |r| ==> IsSpace(s[i])
  {
    if |s| > 0 && IsSpace(s[0]) then TrimStart(s[1..]) else s
  }

  /** `s.rstrip()`: the longest prefix of `s` that does not end with whitespace. */
  function TrimEnd(s: string): (r: string)
    ensures |r| <= |s| && r == s[..|r|]
    ensures r == [] || !IsSpace(r[|r| - 1])
    ensures forall i :: |r| <= i < |s| ==> IsSpace(s[i])
  {
    if |s| > 0 && IsSpace(s[|s| - 1]) then TrimEnd(s[..|s| - 1]) else s
  }

  /** `s.strip()`: `s` without its leading and trailing whitespace. */
  function Strip(s: string): (r: string)
    ensures |r| <= |s|
    ensures r == [] || (!IsSpace(r[0]) && !IsSpace(r[|r| - 1]))
    ensures |r| <= |TrimStart(s)| && r == TrimStart(s)[..|r|]
  {
    TrimEnd(TrimStart(s))
  }

  /** Removing whitespace appended to a string does not change what `strip` returns. */
  lemma {:induction false} StripIgnoresTrailingSpace(s: string, tail: string)
    requires forall i :: 0 <= i < |tail| ==> IsSpace(tail[i])
    ensures Strip(s + tail) == Strip(s)
  {
    if TrimStart(s) == [] {
      TrimStartSkipsSpaces(s, tail);
      assert TrimStart(s + tail) == TrimStart(tail);
      AllSpaceTrimsToEmpty(tail);
    } else {
      TrimStartKeepsTail(s, tail);
      TrimEndDropsSpaces(TrimStart(s), tail);
    }
  }

  lemma {:induction false} AllSpaceTrimsToEmpty(t: string)
    requires forall i :: 0 <= i < |t| ==> IsSpace(t[i])
    ensures TrimStart(t) == []
  {
    if |t| > 0 {
      AllSpaceTrimsToEmpty(t[1..]);
    }
  }

  lemma {:induction false} TrimStartSkipsSpaces(s: string, tail: string)
    requires TrimStart(s) == []
    ensures TrimStart(s + tail) == TrimStart(tail)
  {
    if |s| > 0 {
      assert (s + tail)[1..] == s[1..] + tail;
      TrimStartSkipsSpaces(s[1..], tail);
    } else {
      assert s + tail == tail;
    }
  }

  lemma {:induction false} TrimStartKeepsTail(s: string, tail: string)
    requires TrimStart(s) != []
    ensures TrimStart(s + tail) == TrimStart(s) + tail
  {
    if IsSpace(s[0]) {
      assert (s + tail)[1..] == s[1..] + tail;
      TrimStartKeepsTail(s[1..], tail);
    }
  }

  lemma {:induction false} TrimEndDropsSpaces(s: string, tail: string)
    requires forall i :: 0 <= i < |tail| ==> IsSpace(tail[i])
    ensures TrimEnd(s + tail) == TrimEnd(s)
  {
    if |tail| > 0 {
      assert (s + tail)[..|s + tail| - 1] == s + tail[..|tail| - 1];
      TrimEndDropsSpaces(s, tail[..|tail| - 1]);
    } else {
      assert s + tail == s;
    }
  }

  /** `strip` leaves a string alone whose ends are not whitespace. */
  lemma StripUnchanged(s: string)
    requires s == [] || (!IsSpace(s[0]) && !IsSpace(s[|s| - 1]))
    ensures Strip(s) == s
  {
  }

  /** A string that starts with a non-whitespace character keeps it first after `strip`. */
  lemma StripKeepsFirst(s: string)
    requires s != [] && !IsSpace(s[0])
    ensures Strip(s) != [] && Strip(s)[0] == s[0]
  {
    assert TrimStart(s) == s;
  }

  /** `sep.join(parts)`. */
  function Join(parts: seq<string>, sep: string): string
  {
    if |parts| == 0 then ""
    else if |parts| == 1 then parts[0]
    else parts[0] + sep + Join(parts[1..], sep)
  }

  /** Joining one more part appends the separator and that part. */
  lemma {:induction false} JoinSnoc(parts: seq<string>, p: string, sep: string)
    requires |parts| > 0
    ensures Join(parts + [p], sep) == Join(parts, sep) + sep + p
  {
    if |parts| == 1 {
      assert (parts + [p])[1..] == [p];
    } else {
      assert (parts + [p])[1..] == parts[1..] + [p];
      JoinSnoc(parts[1..], p, sep);
    }
  }

  /** `pattern` occurs in `s` starting at index `k`. */
  predicate OccursAt(s: string, pattern: string, k: nat) {
    k + |pattern| <= |s| && s[k..k + |pattern|] == pattern
  }

  /** The index of the first occurrence of `pattern` in `s` at or after `from`, as `str.find` would report it. */
  function FindFrom(s: string, pattern: string, from: nat): (r: Option<nat>)
    requires |pattern| > 0
    decreases |s| - from
    ensures r.Some? ==> from <= r.value && OccursAt(s, pattern, r.value)
    ensures r.Some? ==> forall k :: from <= k < r.value ==> !OccursAt(s, pattern, k)
    ensures r.None? ==> forall k :: from <= k ==> !OccursAt(s, pattern, k)
  {
    if from + |pattern| > |s| then None
    else if s[from..from + |pattern|] == pattern then Some(from)
    else FindFrom(s, pattern, from + 1)
  }

  /** `s.split(sep, maxsplit=1)` for a non-empty separator: two parts around the first `sep`, or `[s]`. */
  function SplitOnce(s: string, sep: string): (r: seq<string>)
    requires |sep| > 0
    ensures 1 <= |r| <= 2
    ensures |r| == 1 <==> FindFrom(s, sep, 0).None?
    ensures |r| == 1 ==> r[0] == s
    ensures |r| == 2 ==> s == r[0] + sep + r[1]
    ensures |r| == 2 ==> forall k :: 0 <= k < |r[0]| ==> !OccursAt(s, sep, k)
  {
    match FindFrom(s, sep, 0)
    case None => [s]
    case Some(i) =>
      assert s == s[..i] + sep + s[i + |sep|..];
      [s[..i], s[i + |sep|..]]
  }

  /** Render a non-negative integer in decimal, as `f"{n}"` does. */
  function NatToString(n: nat): (r: string)
    ensures |r| > 0
    ensures forall i :: 0 <= i < |r| ==> '0' <= r[i] <= '9'
    decreases n
  {
    if n < 10 then [Digit(n)] else NatToString(n / 10) + [Digit(n % 10)]
  }

  function Digit(d: nat): (c: char)
    requires d < 10
    ensures '0' <= c <= '9'
  {
    ['0', '1', '2', '3', '4', '5', '6', '7', '8', '9'][d]
  }

  /** `str(i)` for a Python `int`. */
  function IntToString(i: int): string {
    if i < 0 then "-" + NatToString(-i) else NatToString(i)
  }

  /** `str.lower()` on one character, for the ASCII and Latin-1 letters. */
  function LowerChar(c: char): char {
    var n := c as int;
    if ('A' as int <= n <= 'Z' as int) || (0xc0 <= n <= 0xde && n != 0xd7) then (n + 32) as char else c
  }

  /** `s.lower()`, restricted to the ASCII and Latin-1 letters. */
  function Lower(s: string): (r: string)
    ensures |r| == |s|
    ensures forall i :: 0 <= i < |s| ==> r[i] == LowerChar(s[i])
  {
    seq(|s|, i requires 0 <= i < |s| => LowerChar(s[i]))
  }

  /** `s.lower() == "y"`: the confirmation test used by the human-in-the-loop nodes. */
  predicate IsYes(s: string) {
    Lower(s) == "y"
  }

  /** Exactly the answers "y" and "Y" confirm. */
  lemma IsYesExactly(s: string)
    ensures IsYes(s) <==> s == "y" || s == "Y"
  {
    if IsYes(s) {
      assert |s| == 1 && LowerChar(s[0]) == 'y';
    }
  }

  /** One character as Python's `repr` of a string writes it inside `quote`. */
  function ReprChar(c: char, quote: char): string {
    if c == '\\' then "\\\\"
    else if c == quote then ['\\', quote]
    else if c == '\n' then "\\n"
    else if c == '\r' then "\\r"
    else if c == '\t' then "\\t"
    else if (c as int) < 0x20 || (0x7f <= c as int <= 0xa0) then
      "\\x" + [HexDigit((c as int) / 16), HexDigit((c as int) % 16)]
    else [c]
  }

  function HexDigit(d: nat): char
    requires d < 16
  {
    "0123456789abcdef"[d]
  }

  function ReprBody(s: string, quote: char): string {
    if s == [] then "" else ReprChar(s[0], quote) + ReprBody(s[1..], quote)
  }

  /** `repr(s)` for a Python string: single quotes unless `s` contains a single quote and no double quote. */
  function PyRepr(s: string): string {
    var quote := if '\'' in s && '"' !in s then '"' else '\'';
    [quote] + ReprBody(s, quote) + [quote]
  }
}
