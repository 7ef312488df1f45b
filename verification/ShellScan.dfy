/** Scanning shell text for quotes and comments, and grouping its lines. */
module ShellScan {
  import opened PyText
  import opened Sequences

  const OPERATOR_CHARS := ";&|()<>"

  datatype Quote = NoQuote | Single | Double

  /** The quote a character opens or closes. */
  function QuoteOf(c: char): Quote { if c == '\'' then Single else if c == '\"' then Double else NoQuote }

  /** The scanner between two characters. */
  datatype State = State(quote: Quote, escaped: bool, previous: char, inComment: bool)

  datatype Scanned = Scanned(kept: string, quote: Quote)

  predicate StartsWord(previous: char) { IsSpace(previous) || previous in OPERATOR_CHARS }

  /** A `#` is a comment only where a word starts. */
  predicate StartsComment(c: char, previous: char) { c == '#' && StartsWord(previous) }

  /** Whether a character is kept. */
  predicate Keeps(s: State, c: char) {
    if s.inComment then c == '\n'
    else s.escaped || s.quote != NoQuote || !StartsComment(c, s.previous)
  }

  function Step(s: State, c: char): State {
    if s.inComment then
      if c == '\n' then s.(inComment := false, previous := c) else s
    else if s.escaped then s.(escaped := false, previous := c)
    else if c == '\\' && s.quote != Single then s.(escaped := true, previous := c)
    else if s.quote != NoQuote then s.(quote := if QuoteOf(c) == s.quote then NoQuote else s.quote, previous := c)
    else if QuoteOf(c) != NoQuote then s.(quote := QuoteOf(c), previous := c)
    else if StartsComment(c, s.previous) then s.(inComment := true)
    else s.(previous := c)
  }

  function After(s: State, text: string): State
    decreases |text|
  {
    if |text| == 0 then s else After(Step(s, text[0]), text[1..])
  }

  function Kept(s: State, text: string): string
    decreases |text|
  {
    if |text| == 0 then ""
    else (if Keeps(s, text[0]) then [text[0]] else "") + Kept(Step(s, text[0]), text[1..])
  }

  function Start(quote: Quote): State { State(quote, false, ' ', false) }

  /** The text without its comments, and the quote still open at its end. */
  function Scan(text: string, quote: Quote): Scanned {
    Scanned(Kept(Start(quote), text), After(Start(quote), text).quote)
  }

  /** One character further into a scan. */
  lemma ScanOne(s: State, text: string, i: nat, kept: string)
    requires i < |text|
    ensures After(s, text[i..]) == After(Step(s, text[i]), text[i + 1..])
    ensures kept + Kept(s, text[i..])
      == (if Keeps(s, text[i]) then kept + [text[i]] else kept) + Kept(Step(s, text[i]), text[i + 1..])
  {
    Tail(text, i);
    if Keeps(s, text[i]) { Assoc(kept, [text[i]], Kept(Step(s, text[i]), text[i + 1..])); }
  }

  method ScanLine(text: string, quote: Quote) returns (kept: string, open: Quote)
    ensures Scanned(kept, open) == Scan(text, quote)
  {
    kept, open := "", quote;
    var escaped, previous, inComment := false, ' ', false;
    var i := 0;
    while i < |text|
      invariant 0 <= i <= |text|
      invariant kept + Kept(State(open, escaped, previous, inComment), text[i..]) == Kept(Start(quote), text)
      invariant After(State(open, escaped, previous, inComment), text[i..]) == After(Start(quote), text)
    {
      var c := text[i];
      ghost var before := State(open, escaped, previous, inComment);
      ScanOne(before, text, i, kept);
      i := i + 1;
      if inComment {
        inComment := c != '\n';
        if inComment { continue; }
      } else if escaped {
        escaped := false;
      } else if c == '\\' && open != Single {
        escaped := true;
      } else if open != NoQuote {
        open := if QuoteOf(c) == open then NoQuote else open;
      } else if QuoteOf(c) != NoQuote {
        open := QuoteOf(c);
      } else if StartsComment(c, previous) {
        inComment := true;
        continue;
      }
      kept := kept + [c];
      previous := c;
    }
    assert text[i..] == "";
  }

  // --- scanning composes ---

  lemma {:induction false} AfterAppend(s: State, a: string, b: string)
    ensures After(s, a + b) == After(After(s, a), b)
    decreases |a|
  {
    if |a| == 0 {
      assert a + b == b;
    } else {
      assert (a + b)[1..] == a[1..] + b;
      AfterAppend(Step(s, a[0]), a[1..], b);
    }
  }

  lemma {:induction false} KeptAppend(s: State, a: string, b: string)
    ensures Kept(s, a + b) == Kept(s, a) + Kept(After(s, a), b)
    decreases |a|
  {
    if |a| == 0 {
      assert a + b == b;
    } else {
      assert (a + b)[1..] == a[1..] + b;
      KeptAppend(Step(s, a[0]), a[1..], b);
    }
  }

  /** Two states that differ only in which character, a word start either way, came
      before. */
  predicate Alike(s: State, t: State) {
    && s.quote == t.quote && s.escaped == t.escaped && s.inComment == t.inComment
    && (s.previous == t.previous || (StartsWord(s.previous) && StartsWord(t.previous)))
  }

  lemma {:induction false} AlikeScans(s: State, t: State, text: string)
    requires Alike(s, t)
    ensures Kept(s, text) == Kept(t, text) && Alike(After(s, text), After(t, text))
    decreases |text|
  {
    if |text| != 0 { AlikeScans(Step(s, text[0]), Step(t, text[0]), text[1..]); }
  }

  /** Inside a comment nothing is quoted or escaped. */
  predicate CommentOk(s: State) { s.inComment ==> !s.escaped && s.quote.NoQuote? }

  lemma {:induction false} CommentStaysOk(s: State, text: string)
    requires CommentOk(s)
    ensures CommentOk(After(s, text))
    decreases |text|
  {
    if |text| != 0 { CommentStaysOk(Step(s, text[0]), text[1..]); }
  }

  lemma AfterNewline(s: State)
    requires CommentOk(s)
    ensures Alike(Step(s, '\n'), Start(s.quote)) && Keeps(s, '\n')
  {
  }

  /** Scanning two lines at once is scanning the first, then the second from the quote
      the first left open. No condition on how the first ends: a newline always ends a
      comment, uses up a backslash, and starts a word. */
  lemma ScanComposes(a: string, b: string, quote: Quote)
    ensures var first := Scan(a, quote);
      var second := Scan(b, first.quote);
      Scan(a + "\n" + b, quote) == Scanned(first.kept + "\n" + second.kept, second.quote)
  {
    var s := Start(quote);
    var mid := After(s, a);
    CommentStaysOk(s, a);
    KeptAppend(s, a + "\n", b);
    KeptAppend(s, a, "\n");
    AfterAppend(s, a + "\n", b);
    AfterAppend(s, a, "\n");
    assert After(mid, "\n") == Step(mid, '\n') && Kept(mid, "\n") == "\n" by { AfterNewline(mid); }
    AfterNewline(mid);
    AlikeScans(Step(mid, '\n'), Start(mid.quote), b);
  }

  /** The state of a scan that never sees the comments. */
  function Uncommented(s: State): State { s.(inComment := false) }

  /** One character, dropped or kept, seen by the scan of the kept text. */
  lemma RescanStep(s: State, c: char)
    requires CommentOk(s)
    ensures CommentOk(Step(s, c))
    ensures Keeps(s, c) ==> Keeps(Uncommented(s), c) && Step(Uncommented(s), c) == Uncommented(Step(s, c))
    ensures !Keeps(s, c) ==> Uncommented(Step(s, c)) == Uncommented(s)
  {
  }

  lemma KeptCons(s: State, c: char, rest: string)
    ensures Kept(s, [c] + rest) == (if Keeps(s, c) then [c] else "") + Kept(Step(s, c), rest)
    ensures After(s, [c] + rest) == After(Step(s, c), rest)
  {
    assert ([c] + rest)[1..] == rest;
  }

  lemma {:induction false} KeptRescans(s: State, text: string)
    requires CommentOk(s)
    ensures Kept(Uncommented(s), Kept(s, text)) == Kept(s, text)
    ensures After(Uncommented(s), Kept(s, text)) == Uncommented(After(s, text))
    decreases |text|
  {
    if |text| == 0 {
      assert Kept(s, text) == "";
    } else {
      var c, rest := text[0], text[1..];
      assert text == [c] + rest;
      RescanStep(s, c);
      KeptCons(s, c, rest);
      KeptRescans(Step(s, c), rest);
      if Keeps(s, c) { KeptCons(Uncommented(s), c, Kept(Step(s, c), rest)); }
      else { assert Kept(s, text) == Kept(Step(s, c), rest); }
    }
  }

  /** What a scan keeps has no comment left: scanning it again changes nothing. */
  lemma ScanIsIdempotent(text: string, quote: Quote)
    ensures var once := Scan(text, quote); Scan(once.kept, quote) == once
  {
    KeptRescans(Start(quote), text);
  }

  // --- logical lines ---

  /** `"\n".join`. */
  function Join(lines: seq<string>): string {
    if |lines| == 0 then ""
    else if |lines| == 1 then lines[0]
    else Join(lines[..|lines| - 1]) + "\n" + lines[|lines| - 1]
  }

  /** The quote open after these lines, scanned as one text. */
  function QuoteAfter(lines: seq<string>): Quote { Scan(Join(lines), NoQuote).quote }

  lemma QuoteAfterMore(lines: seq<string>, line: string)
    ensures QuoteAfter(lines + [line]) == Scan(line, QuoteAfter(lines)).quote
  {
    var more := lines + [line];
    if |lines| == 0 {
      assert more == [line];
    } else {
      assert more[..|more| - 1] == lines;
      ScanComposes(Join(lines), line, NoQuote);
    }
  }

  /** A group of lines that no quote leaves open before its end. */
  ghost predicate Unbroken(group: seq<string>) {
    |group| != 0 && forall k | 0 < k < |group| :: QuoteAfter(group[..k]) != NoQuote
  }

  predicate Closed(group: seq<string>) { QuoteAfter(group).NoQuote? }

  function Flatten(groups: seq<seq<string>>): seq<string> {
    if |groups| == 0 then [] else groups[0] + Flatten(groups[1..])
  }

  /** What grouping promises: all lines, in order; every group goes on for exactly as
      long as a quote is open; only the last may end inside one. */
  ghost predicate Grouping(lines: seq<string>, groups: seq<seq<string>>) {
    && Flatten(groups) == lines
    && (forall i | 0 <= i < |groups| :: Unbroken(groups[i]))
    && (forall i | 0 <= i < |groups| - 1 :: Closed(groups[i]))
  }

  lemma {:induction false} FlattenAppend(groups: seq<seq<string>>, group: seq<string>)
    ensures Flatten(groups + [group]) == Flatten(groups) + group
  {
    if |groups| == 0 {
      assert groups + [group] == [group];
      assert [group][1..] == [];
    } else {
      assert (groups + [group])[1..] == groups[1..] + [group];
      FlattenAppend(groups[1..], group);
    }
  }

  /** The texts of the groups. */
  function Joined(groups: seq<seq<string>>): seq<string> {
    if |groups| == 0 then [] else Joined(groups[..|groups| - 1]) + [Join(groups[|groups| - 1])]
  }

  /** Between two lines: what is grouped, and what is pending with its open quote. */
  ghost predicate Midway(done: seq<string>, groups: seq<seq<string>>, pending: seq<string>) {
    && Flatten(groups) + pending == done
    && (forall k | 0 <= k < |groups| :: Unbroken(groups[k]) && Closed(groups[k]))
    && (forall k | 0 < k <= |pending| :: QuoteAfter(pending[..k]) != NoQuote)
  }

  /** One more line whose end leaves a quote open. */
  lemma MidwayOpen(done: seq<string>, groups: seq<seq<string>>, pending: seq<string>, line: string)
    requires Midway(done, groups, pending) && QuoteAfter(pending + [line]) != NoQuote
    ensures Midway(done + [line], groups, pending + [line])
  {
    var more := pending + [line];
    Assoc(Flatten(groups), pending, [line]);
    forall k | 0 < k <= |more| ensures QuoteAfter(more[..k]) != NoQuote {
      if k <= |pending| { assert more[..k] == pending[..k]; } else { assert more[..k] == more; }
    }
  }

  lemma PendingUnbroken(pending: seq<string>, line: string)
    requires forall k | 0 < k <= |pending| :: QuoteAfter(pending[..k]) != NoQuote
    ensures Unbroken(pending + [line])
  {
    var more := pending + [line];
    forall k | 0 < k < |more| ensures QuoteAfter(more[..k]) != NoQuote {
      assert more[..k] == pending[..k];
    }
  }

  /** One more line that closes the group. */
  lemma MidwayClosed(done: seq<string>, groups: seq<seq<string>>, pending: seq<string>, line: string)
    requires Midway(done, groups, pending) && QuoteAfter(pending + [line]) == NoQuote
    ensures Midway(done + [line], groups + [pending + [line]], [])
    ensures Joined(groups + [pending + [line]]) == Joined(groups) + [Join(pending + [line])]
  {
    var more := pending + [line];
    Assoc(Flatten(groups), pending, [line]);
    FlattenAppend(groups, more);
    PendingUnbroken(pending, line);
    assert (groups + [more])[..|groups|] == groups;
    assert Flatten(groups + [more]) + [] == Flatten(groups + [more]);
  }

  /** At the end what is pending becomes the last group. */
  lemma MidwayEnd(done: seq<string>, groups: seq<seq<string>>, pending: seq<string>)
    requires Midway(done, groups, pending)
    ensures |pending| == 0 ==> Grouping(done, groups)
    ensures |pending| != 0 ==> Grouping(done, groups + [pending])
    ensures Joined(groups + [pending]) == Joined(groups) + [Join(pending)]
  {
    FlattenAppend(groups, pending);
    assert (groups + [pending])[..|groups|] == groups;
    if |pending| == 0 { assert Flatten(groups) + pending == Flatten(groups); }
  }

  /** The loop of `_logical_lines`. */
  method GroupLines(lines: seq<string>) returns (logical: seq<string>)
    ensures exists groups :: Grouping(lines, groups) && logical == Joined(groups)
  {
    logical := [];
    ghost var groups: seq<seq<string>> := [];
    var pending: seq<string> := [];
    var quote := NoQuote;
    var i := 0;
    while i < |lines|
      invariant 0 <= i <= |lines|
      invariant Midway(lines[..i], groups, pending) && logical == Joined(groups)
      invariant quote == QuoteAfter(pending)
    {
      var line := lines[i];
      QuoteAfterMore(pending, line);
      Snoc(lines, i);
      var _, open := ScanLine(line, quote);
      i := i + 1;
      if open != NoQuote {
        MidwayOpen(lines[..i - 1], groups, pending, line);
        pending := pending + [line];
      } else {
        MidwayClosed(lines[..i - 1], groups, pending, line);
        logical := logical + [Join(pending + [line])];
        groups := groups + [pending + [line]];
        pending := [];
      }
      quote := open;
    }
    assert lines[..i] == lines;
    MidwayEnd(lines, groups, pending);
    if |pending| != 0 {
      logical := logical + [Join(pending)];
      groups := groups + [pending];
    }
  }

  /** There is only one such grouping, so the promise pins the result down. */
  lemma {:induction false} GroupingIsUnique(lines: seq<string>, one: seq<seq<string>>, two: seq<seq<string>>)
    requires Grouping(lines, one) && Grouping(lines, two)
    ensures one == two
    decreases |one|
  {
    if |one| == 0 || |two| == 0 {
      NoGroups(lines, one);
      NoGroups(lines, two);
    } else {
      var a, b := one[0], two[0];
      var one', two' := one[1..], two[1..];
      assert lines == a + Flatten(one') && lines == b + Flatten(two');
      FirstGroups(lines, one, two);
      assert Flatten(one') == lines[|a|..] && Flatten(two') == lines[|b|..];
      GroupingIsUnique(lines[|a|..], one', two');
      assert one == [a] + one' && two == [b] + two';
    }
  }

  lemma NoGroups(lines: seq<string>, groups: seq<seq<string>>)
    requires Grouping(lines, groups)
    ensures |lines| == 0 <==> |groups| == 0
  {
    if |groups| != 0 { assert Unbroken(groups[0]); }
  }

  /** The first groups of two groupings are equally long: the shorter would be a closed
      prefix of the longer, or all there is. */
  lemma FirstGroups(lines: seq<string>, one: seq<seq<string>>, two: seq<seq<string>>)
    requires Grouping(lines, one) && Grouping(lines, two) && |one| != 0 && |two| != 0
    ensures one[0] == two[0]
  {
    NotShorter(lines, one, two);
    NotShorter(lines, two, one);
    var a, b := one[0], two[0];
    assert a == lines[..|a|] && b == lines[..|b|];
  }

  lemma PrefixIsOpen(group: seq<string>, k: nat)
    requires Unbroken(group)
    ensures 0 < k < |group| ==> QuoteAfter(group[..k]) != NoQuote
  {
  }

  lemma PrefixOf<T>(a: seq<T>, restA: seq<T>, b: seq<T>, restB: seq<T>)
    requires a + restA == b + restB
    ensures |a| <= |b| ==> b[..|a|] == a
  {
    assert a == (a + restA)[..|a|] && b == (b + restB)[..|b|];
  }

  lemma NotShorter(lines: seq<string>, one: seq<seq<string>>, two: seq<seq<string>>)
    requires Grouping(lines, one) && Grouping(lines, two) && |one| != 0 && |two| != 0
    ensures |one[0]| >= |two[0]|
  {
    var a, b := one[0], two[0];
    assert lines == a + Flatten(one[1..]) && lines == b + Flatten(two[1..]);
    assert a == lines[..|a|] && b == lines[..|b|];
    if |one| == 1 {
      assert Flatten(one[1..]) == [];
      assert |a| == |lines|;
    } else {
      assert Closed(a) && Unbroken(b) && Unbroken(a);
      PrefixIsOpen(b, |a|);
      PrefixOf(a, Flatten(one[1..]), b, Flatten(two[1..]));
    }
  }

  /** The rescan of a logical line, from no quote, ends where the grouping did, and
      keeps what the line-by-line scans kept. */
  lemma {:induction false} RescanAgrees(group: seq<string>)
    requires |group| != 0
    ensures Scan(Join(group), NoQuote) == Scanned(Join(KeptLines(group, NoQuote)), QuoteAfter(group))
    decreases |group|
  {
    if |group| > 1 {
      var most, last := group[..|group| - 1], group[|group| - 1];
      RescanAgrees(most);
      ScanComposes(Join(most), last, NoQuote);
      KeptLinesMore(most, last, NoQuote);
      assert group == most + [last];
      var kept := KeptLines(group, NoQuote);
      assert kept[..|kept| - 1] == KeptLines(most, NoQuote);
    }
  }

  /** The lines scanned one after the other, each from the quote the last left open. */
  function KeptLines(lines: seq<string>, quote: Quote): (kept: seq<string>)
    ensures |kept| == |lines|
  {
    if |lines| == 0 then []
    else [Scan(lines[0], quote).kept] + KeptLines(lines[1..], Scan(lines[0], quote).quote)
  }

  function QuoteThrough(lines: seq<string>, quote: Quote): Quote {
    if |lines| == 0 then quote else QuoteThrough(lines[1..], Scan(lines[0], quote).quote)
  }

  lemma {:induction false} KeptLinesMore(lines: seq<string>, line: string, quote: Quote)
    ensures KeptLines(lines + [line], quote)
      == KeptLines(lines, quote) + [Scan(line, QuoteThrough(lines, quote)).kept]
    ensures quote == NoQuote ==> QuoteThrough(lines, quote) == QuoteAfter(lines)
    decreases |lines|
  {
    KeptLinesStep(lines, line, quote);
    if quote == NoQuote { ThroughIsAfter(lines); }
  }

  lemma {:induction false} KeptLinesStep(lines: seq<string>, line: string, quote: Quote)
    ensures KeptLines(lines + [line], quote)
      == KeptLines(lines, quote) + [Scan(line, QuoteThrough(lines, quote)).kept]
    decreases |lines|
  {
    if |lines| == 0 {
      assert lines + [line] == [line];
      assert [line][1..] == [];
    } else {
      assert (lines + [line])[1..] == lines[1..] + [line];
      KeptLinesStep(lines[1..], line, Scan(lines[0], quote).quote);
    }
  }

  lemma {:induction false} ThroughMore(lines: seq<string>, line: string, quote: Quote)
    ensures QuoteThrough(lines + [line], quote) == Scan(line, QuoteThrough(lines, quote)).quote
    decreases |lines|
  {
    if |lines| == 0 {
      assert lines + [line] == [line];
      assert [line][1..] == [];
    } else {
      assert (lines + [line])[1..] == lines[1..] + [line];
      ThroughMore(lines[1..], line, Scan(lines[0], quote).quote);
    }
  }

  lemma {:induction false} ThroughIsAfter(lines: seq<string>)
    ensures QuoteThrough(lines, NoQuote) == QuoteAfter(lines)
    decreases |lines|
  {
    if |lines| != 0 {
      var most, last := lines[..|lines| - 1], lines[|lines| - 1];
      assert lines == most + [last];
      ThroughIsAfter(most);
      ThroughMore(most, last, NoQuote);
      QuoteAfterMore(most, last);
    }
  }
}
