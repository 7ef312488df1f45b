/** The parts of Python's `str` the program leans on. */
module PyText {
  /** `str.isspace` of one character. */
  predicate IsSpace(c: char) {
    || '\t' <= c <= '\r' || '\U{1c}' <= c <= ' ' || c == '\U{85}' || c == '\U{a0}' || c == '\U{1680}'
    || '\U{2000}' <= c <= '\U{200a}' || c == '\U{2028}' || c == '\U{2029}' || c == '\U{202f}'
    || c == '\U{205f}' || c == '\U{3000}'
  }

  /** The characters `str.splitlines` ends a line at. */
  predicate IsBreak(c: char) {
    || '\n' <= c <= '\r' || '\U{1c}' <= c <= '\U{1e}' || c == '\U{85}' || c == '\U{2028}' || c == '\U{2029}'
  }

  predicate Blank(s: string) { forall i | 0 <= i < |s| :: IsSpace(s[i]) }

  /** `lstrip`, `rstrip`, `strip`. */
  function StripLeft(s: string): string { if |s| != 0 && IsSpace(s[0]) then StripLeft(s[1..]) else s }

  function StripRight(s: string): string {
    if |s| != 0 && IsSpace(s[|s| - 1]) then StripRight(s[..|s| - 1]) else s
  }

  function Strip(s: string): string { StripRight(StripLeft(s)) }

  /** Where the first line of `s` ends. */
  function LineEnd(s: string): (i: nat)
    ensures i <= |s| && (i < |s| ==> IsBreak(s[i]))
    ensures forall k | 0 <= k < i :: !IsBreak(s[k])
  {
    if |s| == 0 || IsBreak(s[0]) then 0 else 1 + LineEnd(s[1..])
  }

  /** A carriage return and the newline after it are one line end. */
  function BreakLength(s: string, i: nat): nat
    requires i < |s|
  {
    if s[i] == '\r' && i + 1 < |s| && s[i + 1] == '\n' then 2 else 1
  }

  function SplitLines(s: string): (lines: seq<string>)
    ensures forall k, j | 0 <= k < |lines| && 0 <= j < |lines[k]| :: !IsBreak(lines[k][j])
    decreases |s|
  {
    if |s| == 0 then []
    else
      var i := LineEnd(s);
      if i == |s| then [s] else [s[..i]] + SplitLines(s[i + BreakLength(s, i)..])
  }

  predicate OneLine(s: string) { forall i | 0 <= i < |s| :: !IsBreak(s[i]) }

  /** Each line followed by a newline. */
  function Lines(lines: seq<string>): string {
    if |lines| == 0 then "" else lines[0] + "\n" + Lines(lines[1..])
  }

  lemma LineEndAt(line: string, rest: string)
    requires OneLine(line)
    ensures LineEnd(line + "\n" + rest) == |line|
  {
    var s := line + "\n" + rest;
    assert s[|line|] == '\n';
    assert forall k | 0 <= k < |line| :: s[k] == line[k];
    var i := LineEnd(s);
    assert i < |s|;
  }

  /** Splitting takes back exactly the lines that were joined. */
  lemma {:induction false} SplitOfLines(lines: seq<string>)
    requires forall i | 0 <= i < |lines| :: OneLine(lines[i])
    ensures SplitLines(Lines(lines)) == lines
  {
    if |lines| != 0 {
      var rest := Lines(lines[1..]);
      LineEndAt(lines[0], rest);
      var s := lines[0] + "\n" + rest;
      assert s[..|lines[0]|] == lines[0];
      assert s[|lines[0]| + 1..] == rest;
      assert s[|lines[0]|] == '\n';
      SplitOfLines(lines[1..]);
    }
  }

  /** What `splitlines` does at the end of the first line: any of the breaks ends it, and a
      carriage return and a newline together are one. */
  lemma SplitAtBreak(line: string, ending: string, rest: string)
    requires OneLine(line)
    requires ending == "\r\n" || (|ending| == 1 && IsBreak(ending[0]) && (ending == "\r" ==> !("\n" <= rest)))
    ensures SplitLines(line + ending + rest) == [line] + SplitLines(rest)
  {
    var s := line + ending + rest;
    assert s[|line|] == ending[0] && forall k | 0 <= k < |line| :: s[k] == line[k];
    var i := LineEnd(s);
    assert i == |line|;
    if |line| + 1 < |s| { assert s[|line| + 1] == if |ending| == 2 then ending[1] else rest[0]; }
    assert s[..i] == line && s[i + BreakLength(s, i)..] == rest;
  }

  /** A text without a break is one line, and no text none. */
  lemma SplitWithoutBreak(line: string)
    requires OneLine(line)
    ensures SplitLines(line) == if line == "" then [] else [line]
  {
  }

  lemma {:induction false} LeftIsStripped(s: string) returns (k: nat)
    ensures k <= |s| && Blank(s[..k]) && StripLeft(s) == s[k..] && (k < |s| ==> !IsSpace(s[k]))
  {
    if |s| == 0 || !IsSpace(s[0]) { return 0; }
    k := LeftIsStripped(s[1..]);
    BlankMore(s[0], s[1..][..k]);
    assert s[..k + 1] == [s[0]] + s[1..][..k];
    k := k + 1;
  }

  lemma {:induction false} RightIsStripped(s: string) returns (k: nat)
    ensures k <= |s| && Blank(s[k..]) && StripRight(s) == s[..k] && (k > 0 ==> !IsSpace(s[k - 1]))
  {
    if |s| == 0 || !IsSpace(s[|s| - 1]) { return |s|; }
    var t := s[..|s| - 1];
    k := RightIsStripped(t);
    BlankMore(s[|s| - 1], t[k..]);
    assert s[k..] == t[k..] + [s[|s| - 1]];
  }

  lemma BlankMore(c: char, s: string)
    requires IsSpace(c) && Blank(s)
    ensures Blank([c] + s) && Blank(s + [c])
  {
  }

  /** Stripping takes exactly the white space off both ends. */
  lemma StripMeaning(s: string) returns (i: nat, j: nat)
    ensures i <= j <= |s| && Strip(s) == s[i..j] && Blank(s[..i]) && Blank(s[j..])
    ensures i < j ==> !IsSpace(s[i]) && !IsSpace(s[j - 1])
  {
    i := LeftIsStripped(s);
    var k := RightIsStripped(s[i..]);
    j := i + k;
    assert s[i..j] == s[i..][..k] && s[j..] == s[i..][k..];
    if i < j { assert s[i..][k - 1] == s[j - 1]; }
  }
}
