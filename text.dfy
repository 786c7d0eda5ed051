/**
 * The small part of JavaScript's and Rust's string behaviour that the core
 * relies on: substring tests, character classes of the regular expressions,
 * decimal conversion of digit strings, case mapping, `trim`, `split(sep, 2)`
 * and splitting a text into newline-terminated lines.
 */
module Text {
  import opened Common

  /** `s.includes(sub)` in TypeScript, `s.contains(sub)` in Rust. */
  predicate Contains(s: string, sub: string) {
    exists i | 0 <= i <= |s| - |sub| :: sub <= s[i..]
  }

  lemma ContainsAt(s: string, sub: string, i: nat)
    requires i + |sub| <= |s| && s[i..i + |sub|] == sub
    ensures Contains(s, sub)
  {
    assert sub <= s[i..];
  }

  /** A string that contains `sub` contains every character of `sub`. */
  lemma ContainsChar(s: string, sub: string, c: char)
    ensures Contains(s, sub) && c in sub ==> c in s
  {
    if Contains(s, sub) && c in sub {
      var i :| 0 <= i <= |s| - |sub| && sub <= s[i..];
      var k :| 0 <= k < |sub| && sub[k] == c;
      assert s[i + k] == c;
    }
  }

  /** A character outside `cls` does not occur in a word of `cls`. */
  lemma NotInWord(w: string, cls: CharClass, c: char)
    requires AllIn(w, cls) && !InClass(c, cls)
    ensures c !in w
  {
  }

  /** The character classes used by the device's line patterns. */
  datatype CharClass =
    | Digit     // \d
    | UpperHex  // [A-F0-9]
    | Word      // \w

  predicate IsDigit(c: char) {
    '0' <= c <= '9'
  }

  predicate InClass(c: char, cls: CharClass) {
    match cls
    case Digit => IsDigit(c)
    case UpperHex => IsDigit(c) || 'A' <= c <= 'F'
    case Word => IsDigit(c) || 'a' <= c <= 'z' || 'A' <= c <= 'Z' || c == '_'
  }

  /** Every character of `s` is in `cls`. */
  predicate AllIn(s: string, cls: CharClass) {
    forall k :: 0 <= k < |s| ==> InClass(s[k], cls)
  }

  /**
   * The length of the longest run of `cls` characters starting at `i`:
   * what a greedy `cls+` consumes when the pattern's next item cannot
   * match a `cls` character.
   */
  function RunLength(s: string, i: nat, cls: CharClass): (n: nat)
    requires i <= |s|
    ensures i + n <= |s|
    decreases |s| - i
  {
    if i < |s| && InClass(s[i], cls) then 1 + RunLength(s, i + 1, cls) else 0
  }

  /** The run consists of `cls` characters only. */
  lemma {:induction false} RunAllIn(s: string, i: nat, cls: CharClass)
    requires i <= |s|
    ensures AllIn(s[i..i + RunLength(s, i, cls)], cls)
    decreases |s| - i
  {
    var n := RunLength(s, i, cls);
    if n > 0 {
      RunAllIn(s, i + 1, cls);
      assert s[i..i + n] == [s[i]] + s[i + 1..i + n];
    }
  }

  /** The run cannot be extended: it ends the string or is followed by a character outside `cls`. */
  lemma {:induction false} RunMaximal(s: string, i: nat, cls: CharClass)
    requires i <= |s|
    ensures var n := RunLength(s, i, cls); i + n == |s| || !InClass(s[i + n], cls)
    decreases |s| - i
  {
    if i < |s| && InClass(s[i], cls) {
      RunMaximal(s, i + 1, cls);
    }
  }

  /**
   * A word of `cls` characters standing at `i` lies inside the run that
   * starts there, and is the whole run when nothing of `cls` follows it.
   */
  lemma {:induction false} RunCoversWord(s: string, i: nat, w: string, cls: CharClass)
    requires i + |w| <= |s| && s[i..i + |w|] == w && AllIn(w, cls)
    ensures RunLength(s, i, cls) >= |w|
    ensures i + |w| == |s| || !InClass(s[i + |w|], cls) ==> RunLength(s, i, cls) == |w|
    decreases |w|
  {
    if |w| > 0 {
      assert s[i] == w[0];
      assert s[i + 1..i + |w|] == w[1..];
      RunCoversWord(s, i + 1, w[1..], cls);
    }
  }

  function DigitValue(c: char): (d: nat)
    ensures d < 10
  {
    if IsDigit(c) then c as int - '0' as int else 0
  }

  /** `Number(s)` for a string of decimal digits, without floating-point rounding. */
  function DecimalValue(s: string): nat {
    if s == [] then 0 else 10 * DecimalValue(s[..|s| - 1]) + DigitValue(s[|s| - 1])
  }

  /** A leading zero does not change the value of a digit string. */
  lemma {:induction false} LeadingZeroIgnored(s: string)
    ensures DecimalValue("0" + s) == DecimalValue(s)
  {
    if s != [] {
      var t := "0" + s;
      assert t[..|t| - 1] == "0" + s[..|s| - 1];
      assert t[|t| - 1] == s[|s| - 1];
      LeadingZeroIgnored(s[..|s| - 1]);
    }
  }

  function LowerChar(c: char): char {
    if 'A' <= c <= 'Z' then (c as int + 32) as char else c
  }

  function UpperChar(c: char): char {
    if 'a' <= c <= 'z' then (c as int - 32) as char else c
  }

  /** `toLowerCase()`, for the ASCII letters. */
  function Lower(s: string): string {
    seq(|s|, i requires 0 <= i < |s| => LowerChar(s[i]))
  }

  /** `toUpperCase()`, for the ASCII letters. */
  function Upper(s: string): string {
    seq(|s|, i requires 0 <= i < |s| => UpperChar(s[i]))
  }

  /** The white space and line terminators that JavaScript's `trim` removes. */
  predicate IsJsSpace(c: char) {
    c == '\t' || c == '\n' || c == '\U{B}' || c == '\U{C}' || c == '\r' || c == ' '
    || c == '\U{A0}' || c == '\U{1680}' || '\U{2000}' <= c <= '\U{200A}'
    || c == '\U{2028}' || c == '\U{2029}' || c == '\U{202F}' || c == '\U{205F}'
    || c == '\U{3000}' || c == '\U{FEFF}'
  }

  function TrimStart(s: string): (r: string)
    ensures |r| <= |s| && r == s[|s| - |r|..]
    ensures forall k :: 0 <= k < |s| - |r| ==> IsJsSpace(s[k])
    ensures r == [] || !IsJsSpace(r[0])
  {
    if s != [] && IsJsSpace(s[0]) then TrimStart(s[1..]) else s
  }

  function TrimEnd(s: string): (r: string)
    ensures |r| <= |s| && r == s[..|r|]
    ensures forall k :: |r| <= k < |s| ==> IsJsSpace(s[k])
    ensures r == [] || !IsJsSpace(r[|r| - 1])
  {
    if s != [] && IsJsSpace(s[|s| - 1]) then TrimEnd(s[..|s| - 1]) else s
  }

  /** `trim()`: drops white space at both ends and keeps the middle intact. */
  function Trim(s: string): string {
    TrimEnd(TrimStart(s))
  }

  /** Trimming never brings in a character that was not there. */
  lemma TrimKeepsAbsent(s: string, c: char)
    requires c !in s
    ensures c !in Trim(s)
  {
    var t := TrimStart(s);
    var r := TrimEnd(t);
    forall k | 0 <= k < |r|
      ensures r[k] != c
    {
      assert r[k] == t[k] == s[|s| - |t| + k];
    }
  }

  /** Upper-casing never brings in a non-letter that was not there. */
  lemma UpperKeepsAbsent(s: string, c: char)
    requires c !in s && !('a' <= c <= 'z') && !('A' <= c <= 'Z')
    ensures c !in Upper(s)
  {
    forall k | 0 <= k < |s|
      ensures Upper(s)[k] != c
    {
      assert Upper(s)[k] == UpperChar(s[k]);
    }
  }

  /** The index of the first `c` in `s`, like `indexOf`/`find`. */
  function IndexOf(s: string, c: char): (r: Option<nat>)
    ensures r.Some? ==> r.value < |s| && s[r.value] == c && c !in s[..r.value]
    ensures r.None? ==> c !in s
  {
    if s == [] then None
    else if s[0] == c then Some(0)
    else match IndexOf(s[1..], c)
      case None => None
      case Some(i) => assert s[..i + 1] == [s[0]] + s[1..][..i]; Some(i + 1)
  }

  /**
   * `s.split(sep, 2)`: the text before the first `sep`, and, when there is a
   * `sep`, the text between it and the next `sep` (or the end). Text after a
   * second separator is dropped, as JavaScript's limit drops it.
   */
  function SplitTwo(s: string, sep: char): (r: (string, Option<string>))
    ensures sep !in r.0
    ensures r.1.None? ==> r.0 == s
    ensures r.1.Some? ==> sep !in r.1.value && r.0 + [sep] + r.1.value <= s
    ensures r.1.Some? ==> |r.0| + 1 + |r.1.value| == |s| || s[|r.0| + 1 + |r.1.value|] == sep
  {
    match IndexOf(s, sep)
    case None => (s, None)
    case Some(i) =>
      var rest := s[i + 1..];
      assert s == s[..i] + [sep] + rest;
      match IndexOf(rest, sep)
      case None => (s[..i], Some(rest))
      case Some(j) =>
        assert rest == rest[..j] + rest[j..];
        (s[..i], Some(rest[..j]))
  }

  /** The newline-terminated lines of a text; a last line without `\n` still counts. */
  function Lines(s: string): seq<string>
    decreases |s|
  {
    match IndexOf(s, '\n')
    case None => if s == [] then [] else [s]
    case Some(i) => [s[..i]] + Lines(s[i + 1..])
  }

  /** Each line followed by a newline, as a text file holds them. */
  function JoinLines(lines: seq<string>): string {
    if lines == [] then "" else lines[0] + "\n" + JoinLines(lines[1..])
  }

  /** Splitting joined single-line strings gives them back. */
  lemma {:induction false} LinesJoinLines(lines: seq<string>)
    requires forall k :: 0 <= k < |lines| ==> '\n' !in lines[k]
    ensures Lines(JoinLines(lines)) == lines
  {
    if lines == [] {
      assert Lines("") == [];
    } else {
      LinesCons(lines[0], JoinLines(lines[1..]));
      LinesJoinLines(lines[1..]);
    }
  }

  /** Joining at least one line leaves a newline as the last character. */
  lemma {:induction false} JoinLinesEndsWithNewline(lines: seq<string>)
    requires |lines| > 0
    ensures |JoinLines(lines)| > 0 && JoinLines(lines)[|JoinLines(lines)| - 1] == '\n'
  {
    var rest := JoinLines(lines[1..]);
    assert JoinLines(lines) == lines[0] + "\n" + rest;
    if |lines| > 1 {
      JoinLinesEndsWithNewline(lines[1..]);
    }
  }

  lemma LinesCons(line: string, rest: string)
    requires '\n' !in line
    ensures Lines(line + "\n" + rest) == [line] + Lines(rest)
  {
    var s := line + "\n" + rest;
    assert s[|line|] == '\n';
    assert s[..|line|] == line;
    assert s[|line| + 1..] == rest;
  }
}
