/** Heredoc bodies removed from a script, as the audit's pattern finds them. */
module ShellHeredocs {
  import opened Options
  import opened PyText
  import opened Sequences
  import opened ShellScan

  // --- the pattern: `<<`, an optional dash, white space, an optional quote, a name,
  //     and the same quote again ---

  predicate NameStart(c: char) { 'a' <= c <= 'z' || 'A' <= c <= 'Z' || c == '_' }

  predicate NameChar(c: char) { NameStart(c) || '0' <= c <= '9' }

  function SkipSpaces(s: string, i: nat): (j: nat)
    requires i <= |s|
    ensures i <= j <= |s| && (j < |s| ==> !IsSpace(s[j]))
    ensures forall k | i <= k < j :: IsSpace(s[k])
    decreases |s| - i
  {
    if i < |s| && IsSpace(s[i]) then SkipSpaces(s, i + 1) else i
  }

  function SkipName(s: string, i: nat): (j: nat)
    requires i <= |s|
    ensures i <= j <= |s| && (j < |s| ==> !NameChar(s[j]))
    ensures forall k | i <= k < j :: NameChar(s[k])
    decreases |s| - i
  {
    if i < |s| && NameChar(s[i]) then SkipName(s, i + 1) else i
  }

  datatype Match = Match(tag: string, end: nat)

  /** The name at `i`, which has to be followed by `quote` when there is one. */
  function MatchName(s: string, i: nat, quote: Quote): (m: Option<Match>)
    requires i <= |s|
    ensures m.Some? ==> i < m.value.end <= |s|
  {
    if i == |s| || !NameStart(s[i]) then None
    else
      var j := SkipName(s, i + 1);
      if quote == NoQuote then Some(Match(s[i..j], j))
      else if j < |s| && QuoteOf(s[j]) == quote then Some(Match(s[i..j], j + 1))
      else None
  }

  /** The pattern at position `i`. */
  function MatchAt(s: string, i: nat): (m: Option<Match>)
    requires i <= |s|
    ensures m.Some? ==> i < m.value.end <= |s|
  {
    if i + 2 > |s| || s[i] != '<' || s[i + 1] != '<' then None
    else
      var j := SkipSpaces(s, if i + 2 < |s| && s[i + 2] == '-' then i + 3 else i + 2);
      if j < |s| && QuoteOf(s[j]) != NoQuote then MatchName(s, j + 1, QuoteOf(s[j]))
      else MatchName(s, j, NoQuote)
  }

  // --- what the pattern says, read as a set of matches ---

  /** A match of the pattern: `<<` at `i`, white space up to `j`, the name from `name`
      up to `last`, and the quote, if there is one, on both sides of it. */
  ghost predicate Fits(s: string, i: nat, j: nat, name: nat, last: nat, quote: Quote, m: Match) {
    && i + 2 <= j <= name < last <= m.end <= |s|
    && s[i] == '<' && s[i + 1] == '<'
    && (forall k | i + 2 <= k < j :: IsSpace(s[k]) || (k == i + 2 && s[k] == '-'))
    && ('a' <= s[name] <= 'z' || 'A' <= s[name] <= 'Z' || s[name] == '_')
    && (forall k | name < k < last ::
          'a' <= s[k] <= 'z' || 'A' <= s[k] <= 'Z' || s[k] == '_' || '0' <= s[k] <= '9')
    && m.tag == s[name..last]
    && (if quote == NoQuote then name == j && m.end == last
        else name == j + 1 && QuoteOf(s[j]) == quote && m.end == last + 1 && QuoteOf(s[last]) == quote)
  }

  ghost predicate Matches(s: string, i: nat, m: Match) {
    exists j: nat, name: nat, last: nat, quote: Quote :: Fits(s, i, j, name, last, quote, m)
  }

  lemma StartsAreNoSpace(c: char)
    ensures NameStart(c) || QuoteOf(c) != NoQuote ==> !IsSpace(c) && c != '-'
    ensures NameChar(c) ==> QuoteOf(c) == NoQuote
  {
  }

  lemma FoundFits(s: string, i: nat)
    requires i <= |s| && MatchAt(s, i).Some?
    ensures Matches(s, i, MatchAt(s, i).value)
  {
    var m := MatchAt(s, i).value;
    var j := SkipSpaces(s, if i + 2 < |s| && s[i + 2] == '-' then i + 3 else i + 2);
    if QuoteOf(s[j]) != NoQuote {
      var last := SkipName(s, j + 2);
      assert Fits(s, i, j, j + 1, last, QuoteOf(s[j]), m);
    } else {
      assert Fits(s, i, j, j, SkipName(s, j + 1), NoQuote, m);
    }
  }

  /** Where the white space ends is forced, and the name found is the longest. */
  lemma FitsIsFound(s: string, i: nat, j: nat, name: nat, last: nat, quote: Quote, m: Match)
    requires i <= |s| && Fits(s, i, j, name, last, quote, m)
    ensures MatchAt(s, i).Some? && m.end <= MatchAt(s, i).value.end && m.tag <= MatchAt(s, i).value.tag
  {
    StartsAreNoSpace(s[j]);
    var from := if i + 2 < |s| && s[i + 2] == '-' then i + 3 else i + 2;
    assert from <= j;
    assert j == SkipSpaces(s, from);
    var k := SkipName(s, name + 1);
    forall x | name < x < last ensures NameChar(s[x]) {}
    assert last <= k;
    if quote != NoQuote { StartsAreNoSpace(s[last]); }
  }

  /** The pattern at a position matches if and only if some reading of it does, and the
      match is the longest there is. */
  lemma MatchAtIsLongest(s: string, i: nat)
    requires i <= |s|
    ensures MatchAt(s, i).Some? <==> exists m :: Matches(s, i, m)
    ensures MatchAt(s, i).Some? ==>
      && Matches(s, i, MatchAt(s, i).value)
      && forall m | Matches(s, i, m) :: m.end <= MatchAt(s, i).value.end && m.tag <= MatchAt(s, i).value.tag
  {
    if MatchAt(s, i).Some? { FoundFits(s, i); }
    forall m | Matches(s, i, m)
      ensures MatchAt(s, i).Some? && m.end <= MatchAt(s, i).value.end && m.tag <= MatchAt(s, i).value.tag
    {
      var j: nat, name: nat, last: nat, quote: Quote :| Fits(s, i, j, name, last, quote, m);
      FitsIsFound(s, i, j, name, last, quote, m);
    }
  }

  /** `finditer`: the tags of the matches, left to right, not overlapping. */
  function TagsFrom(s: string, i: nat): seq<string>
    requires i <= |s|
    decreases |s| - i
  {
    if i == |s| then []
    else
      var m := MatchAt(s, i);
      if m.Some? then [m.value.tag] + TagsFrom(s, m.value.end) else TagsFrom(s, i + 1)
  }

  function Tags(line: string): seq<string> { TagsFrom(line, 0) }

  /** The pattern matches nowhere from `i` up to `j`. */
  ghost predicate NoMatch(s: string, i: nat, j: nat)
    requires j <= |s|
  {
    forall k: nat | i <= k < j :: MatchAt(s, k).None?
  }

  /** These are the places where the pattern is found from `i` on: each the first one
      that matches from where the match before it ended, and none after the last. */
  ghost predicate Found(s: string, i: nat, places: seq<nat>)
    requires i <= |s|
    decreases |places|
  {
    if |places| == 0 then NoMatch(s, i, |s|)
    else
      && i <= places[0] <= |s| && NoMatch(s, i, places[0])
      && MatchAt(s, places[0]).Some? && Found(s, MatchAt(s, places[0]).value.end, places[1..])
  }

  function TagsAt(s: string, places: seq<nat>): seq<string> {
    if |places| == 0 then []
    else
      (if places[0] <= |s| && MatchAt(s, places[0]).Some? then [MatchAt(s, places[0]).value.tag] else [])
      + TagsAt(s, places[1..])
  }

  /** The tags are those of the matches found left to right, not overlapping. */
  lemma {:induction false} TagsAreFound(s: string, i: nat) returns (places: seq<nat>)
    requires i <= |s|
    ensures Found(s, i, places) && TagsFrom(s, i) == TagsAt(s, places)
    decreases |s| - i
  {
    if i == |s| { return []; }
    var m := MatchAt(s, i);
    if m.Some? {
      var rest := TagsAreFound(s, m.value.end);
      places := [i] + rest;
      assert places[1..] == rest;
      assert NoMatch(s, i, i);
    } else {
      places := TagsAreFound(s, i + 1);
      LaterPlaces(s, i, places);
    }
  }

  lemma LaterPlaces(s: string, i: nat, places: seq<nat>)
    requires i < |s| && MatchAt(s, i).None? && Found(s, i + 1, places)
    ensures Found(s, i, places)
  {
    var j := if |places| == 0 then |s| else places[0];
    forall k: nat | i <= k < j ensures MatchAt(s, k).None? {
      if k > i { assert NoMatch(s, i + 1, j); }
    }
    assert NoMatch(s, i, j);
  }

  // --- removal ---

  /** The lines kept while the heredocs of `pending` are open. */
  function Keep(lines: seq<string>, pending: seq<string>): seq<string>
    decreases |lines|
  {
    if |lines| == 0 then []
    else if |pending| != 0 then
      Keep(lines[1..], if Strip(lines[0]) == pending[0] then pending[1..] else pending)
    else [lines[0]] + Keep(lines[1..], Tags(lines[0]))
  }

  method WithoutHeredocs(script: string) returns (kept: seq<string>)
    ensures kept == Keep(SplitLines(script), [])
  {
    kept := [];
    var pending: seq<string> := [];
    var lines := SplitLines(script);
    var i := 0;
    while i < |lines|
      invariant 0 <= i <= |lines|
      invariant kept + Keep(lines[i..], pending) == Keep(lines, [])
    {
      var line := lines[i];
      assert lines[i..][1..] == lines[i + 1..];
      i := i + 1;
      if |pending| != 0 {
        if Strip(line) == pending[0] { pending := pending[1..]; }
        continue;
      }
      kept := kept + [line];
      pending := Tags(line);
    }
  }

  // --- scripts as commands and bodies ---

  /** The lines of one body, and the line that ends it. */
  datatype Body = Body(lines: seq<string>, terminator: string)

  datatype Item = Item(command: string, bodies: seq<Body>)

  ghost predicate BodyOk(tag: string, body: Body) {
    && (forall i | 0 <= i < |body.lines| :: Strip(body.lines[i]) != tag)
    && Strip(body.terminator) == tag
  }

  ghost predicate BodiesOk(tags: seq<string>, bodies: seq<Body>) {
    |bodies| == |tags| && forall i | 0 <= i < |tags| :: BodyOk(tags[i], bodies[i])
  }

  /** One body per tag the pattern finds in the command, none ending early. */
  ghost predicate ItemOk(item: Item) { BodiesOk(Tags(item.command), item.bodies) }

  function RenderBodies(bodies: seq<Body>): seq<string> {
    if |bodies| == 0 then [] else bodies[0].lines + [bodies[0].terminator] + RenderBodies(bodies[1..])
  }

  function Render(items: seq<Item>): seq<string> {
    if |items| == 0 then [] else [items[0].command] + RenderBodies(items[0].bodies) + Render(items[1..])
  }

  function Commands(items: seq<Item>): seq<string> {
    if |items| == 0 then [] else [items[0].command] + Commands(items[1..])
  }

  lemma {:induction false} SkipOpenBody(lines: seq<string>, rest: seq<string>, pending: seq<string>)
    requires |pending| != 0 && forall i | 0 <= i < |lines| :: Strip(lines[i]) != pending[0]
    ensures Keep(lines + rest, pending) == Keep(rest, pending)
    decreases |lines|
  {
    if |lines| == 0 {
      assert lines + rest == rest;
    } else {
      Rest(lines, rest);
      SkipOpenBody(lines[1..], rest, pending);
    }
  }

  lemma {:induction false} SkipBodies(bodies: seq<Body>, rest: seq<string>, tags: seq<string>, more: seq<string>)
    requires BodiesOk(tags, bodies)
    ensures Keep(RenderBodies(bodies) + rest, tags + more) == Keep(rest, more)
    decreases |bodies|
  {
    if |bodies| == 0 {
      assert RenderBodies(bodies) + rest == rest && tags + more == more;
    } else {
      var b := bodies[0];
      assert BodyOk(tags[0], b);
      var tail := RenderBodies(bodies[1..]) + rest;
      Regroup3(b.lines, [b.terminator], RenderBodies(bodies[1..]), rest);
      assert (tags + more)[0] == tags[0] && (tags + more)[1..] == tags[1..] + more;
      SkipOpenBody(b.lines, [b.terminator] + tail, tags + more);
      Cons(b.terminator, tail);
      assert BodiesOk(tags[1..], bodies[1..]) by {
        forall i | 0 <= i < |tags[1..]| ensures BodyOk(tags[1..][i], bodies[1..][i]) {
          assert BodyOk(tags[i + 1], bodies[i + 1]);
        }
      }
      SkipBodies(bodies[1..], rest, tags[1..], more);
    }
  }

  lemma Regroup3(a: seq<string>, b: seq<string>, c: seq<string>, d: seq<string>)
    ensures (a + b + c) + d == a + (b + (c + d))
  {
  }

  /** One item in front of anything. */
  lemma KeepOne(item: Item, rest: seq<string>)
    requires ItemOk(item)
    ensures Keep([item.command] + (RenderBodies(item.bodies) + rest), []) == [item.command] + Keep(rest, [])
  {
    Cons(item.command, RenderBodies(item.bodies) + rest);
    SkipBodies(item.bodies, rest, Tags(item.command), []);
    assert Tags(item.command) + [] == Tags(item.command);
  }

  lemma {:induction false} KeepRendered(items: seq<Item>, rest: seq<string>)
    requires forall i | 0 <= i < |items| :: ItemOk(items[i])
    ensures Keep(Render(items) + rest, []) == Commands(items) + Keep(rest, [])
    decreases |items|
  {
    if |items| == 0 {
      assert Render(items) + rest == rest;
    } else {
      var item := items[0];
      var tail := Render(items[1..]) + rest;
      assert ItemOk(item);
      Regroup3([item.command], RenderBodies(item.bodies), Render(items[1..]), rest);
      KeepRendered(items[1..], rest);
      KeepOne(item, tail);
      Assoc([item.command], Commands(items[1..]), Keep(rest, []));
    }
  }

  /** Render command lines with a body and a terminator per tag the pattern finds in
      them, whatever else the bodies hold, openers and other tags included: removing the
      heredocs gives back exactly the command lines. */
  lemma RoundTrip(items: seq<Item>)
    requires forall i | 0 <= i < |items| :: ItemOk(items[i])
    requires forall i | 0 <= i < |Render(items)| :: OneLine(Render(items)[i])
    ensures Keep(SplitLines(Lines(Render(items))), []) == Commands(items)
  {
    SplitOfLines(Render(items));
    KeepRendered(items, []);
    assert Render(items) + [] == Render(items);
  }

  /** A script's last command, when it ends before its heredocs do: some bodies are
      complete, and one has no terminator. */
  datatype Tail = NoTail | Tail(command: string, bodies: seq<Body>, open: seq<string>)

  ghost predicate TailOk(tail: Tail) {
    tail.Tail? ==>
      var tags := Tags(tail.command);
      && |tail.bodies| < |tags|
      && BodiesOk(tags[..|tail.bodies|], tail.bodies)
      && forall i | 0 <= i < |tail.open| :: Strip(tail.open[i]) != tags[|tail.bodies|]
  }

  function RenderTail(tail: Tail): seq<string> {
    match tail
    case NoTail => []
    case Tail(command, bodies, open) => [command] + RenderBodies(bodies) + open
  }

  function TailCommands(tail: Tail): seq<string> {
    match tail
    case NoTail => []
    case Tail(command, _, _) => [command]
  }

  datatype Split = Complete(body: Body, rest: seq<string>) | Unterminated

  /** The first line that ends the heredoc `tag`, if any. */
  function SplitBody(lines: seq<string>, tag: string): (s: Split)
    ensures s.Complete? ==> && lines == s.body.lines + [s.body.terminator] + s.rest && |s.rest| < |lines|
                            && BodyOk(tag, s.body)
    ensures s.Unterminated? ==> forall i | 0 <= i < |lines| :: Strip(lines[i]) != tag
  {
    if |lines| == 0 then Unterminated
    else if Strip(lines[0]) == tag then
      assert lines == [] + [lines[0]] + lines[1..];
      Complete(Body([], lines[0]), lines[1..])
    else
      match SplitBody(lines[1..], tag)
      case Unterminated => Unterminated
      case Complete(body, rest) =>
        assert lines == [lines[0]] + lines[1..];
        Complete(Body([lines[0]] + body.lines, body.terminator), rest)
  }

  /** The bodies at the head of `lines`; `rest` is None when one is unterminated, and
      `open` its lines. */
  lemma {:induction false} ParseBodies(lines: seq<string>, tags: seq<string>)
    returns (bodies: seq<Body>, rest: Option<seq<string>>, open: seq<string>)
    ensures rest.Some? ==> BodiesOk(tags, bodies) && lines == RenderBodies(bodies) + rest.value
    ensures rest.Some? ==> |rest.value| <= |lines|
    ensures rest.None? ==> && |bodies| < |tags| && BodiesOk(tags[..|bodies|], bodies)
                           && lines == RenderBodies(bodies) + open
                           && forall i | 0 <= i < |open| :: Strip(open[i]) != tags[|bodies|]
    decreases |tags|
  {
    if |tags| == 0 {
      assert lines == RenderBodies([]) + lines;
      return [], Some(lines), [];
    }
    var s := SplitBody(lines, tags[0]);
    if s.Unterminated? {
      assert lines == RenderBodies([]) + lines;
      return [], None, lines;
    }
    bodies, rest, open := ParseBodies(s.rest, tags[1..]);
    var all := [s.body] + bodies;
    assert all[1..] == bodies;
    BodiesCons(tags, s.body, bodies);
    if rest.Some? { assert lines == RenderBodies(all) + rest.value; } else { assert lines == RenderBodies(all) + open; }
    bodies := all;
  }

  lemma BodiesCons(tags: seq<string>, body: Body, bodies: seq<Body>)
    requires |tags| != 0 && BodyOk(tags[0], body) && |bodies| < |tags|
    ensures BodiesOk(tags[1..][..|bodies|], bodies) ==> BodiesOk(tags[..|bodies| + 1], [body] + bodies)
    ensures BodiesOk(tags[1..], bodies) ==> BodiesOk(tags, [body] + bodies)
  {
    var all := [body] + bodies;
    assert forall i | 0 < i < |all| :: all[i] == bodies[i - 1] && tags[i] == tags[1..][i - 1];
    if BodiesOk(tags[1..][..|bodies|], bodies) {
      forall i | 0 <= i < |all| ensures BodyOk(tags[..|bodies| + 1][i], all[i]) {
        if i > 0 { assert BodyOk(tags[1..][..|bodies|][i - 1], bodies[i - 1]); }
      }
    }
    if BodiesOk(tags[1..], bodies) {
      forall i | 0 <= i < |all| ensures BodyOk(tags[i], all[i]) {
        if i > 0 { assert BodyOk(tags[1..][i - 1], bodies[i - 1]); }
      }
    }
  }

  lemma RenderCons(item: Item, items: seq<Item>)
    ensures Render([item] + items) == [item.command] + RenderBodies(item.bodies) + Render(items)
  {
    assert ([item] + items)[1..] == items;
  }

  lemma Regroup(a: seq<string>, b: seq<string>, c: seq<string>, d: seq<string>)
    ensures a + (b + (c + d)) == a + b + c + d
  {
  }

  lemma DecomposeMore(lines: seq<string>, item: Item, items: seq<Item>, tail: Tail)
    requires ItemOk(item) && forall i | 0 <= i < |items| :: ItemOk(items[i])
    requires lines == [item.command] + (RenderBodies(item.bodies) + (Render(items) + RenderTail(tail)))
    ensures lines == Render([item] + items) + RenderTail(tail)
    ensures forall i | 0 <= i < |[item] + items| :: ItemOk(([item] + items)[i])
  {
    RenderCons(item, items);
    Regroup([item.command], RenderBodies(item.bodies), Render(items), RenderTail(tail));
  }

  lemma DecomposeEnd(command: string, bodies: seq<Body>, open: seq<string>)
    ensures [command] + (RenderBodies(bodies) + open) == Render([]) + RenderTail(Tail(command, bodies, open))
  {
    Assoc([command], RenderBodies(bodies), open);
    assert Render([]) + RenderTail(Tail(command, bodies, open)) == RenderTail(Tail(command, bodies, open));
  }

  lemma {:induction false} Decompose(lines: seq<string>) returns (items: seq<Item>, tail: Tail)
    ensures forall i | 0 <= i < |items| :: ItemOk(items[i])
    ensures TailOk(tail) && lines == Render(items) + RenderTail(tail)
    decreases |lines|
  {
    if |lines| == 0 { return [], NoTail; }
    var command, below := lines[0], lines[1..];
    assert lines == [command] + below;
    var bodies, rest, open := ParseBodies(below, Tags(command));
    if rest.Some? {
      var item := Item(command, bodies);
      items, tail := Decompose(rest.value);
      DecomposeMore(lines, item, items, tail);
      items := [item] + items;
    } else {
      items, tail := [], Tail(command, bodies, open);
      DecomposeEnd(command, bodies, open);
    }
  }

  lemma KeepUnterminated(tail: Tail)
    requires tail.Tail? && TailOk(tail)
    ensures Keep(RenderTail(tail), []) == [tail.command]
  {
    var tags, n := Tags(tail.command), |tail.bodies|;
    var body := RenderBodies(tail.bodies) + tail.open;
    assert RenderTail(tail) == [tail.command] + body;
    assert ([tail.command] + body)[1..] == body;
    assert tags == tags[..n] + tags[n..];
    SkipBodies(tail.bodies, tail.open, tags[..n], tags[n..]);
    assert tail.open + [] == tail.open;
    SkipOpenBody(tail.open, [], tags[n..]);
  }

  /** And every script is such a rendering, up to an unterminated end: so removing the
      heredocs of any script at all keeps exactly its command lines. */
  lemma EveryScriptIsARendering(lines: seq<string>) returns (items: seq<Item>, tail: Tail)
    ensures forall i | 0 <= i < |items| :: ItemOk(items[i])
    ensures TailOk(tail)
    ensures lines == Render(items) + RenderTail(tail)
    ensures Keep(lines, []) == Commands(items) + TailCommands(tail)
  {
    items, tail := Decompose(lines);
    KeepRendered(items, RenderTail(tail));
    if tail.Tail? { KeepUnterminated(tail); }
  }

  // --- logical lines of a script ---

  /** A backslash before a newline continues the line: both become a space. */
  function Continued(s: string): string {
    if |s| == 0 then ""
    else if |s| > 1 && s[0] == '\\' && s[1] == '\n' then " " + Continued(s[2..])
    else [s[0]] + Continued(s[1..])
  }

  const CONTINUATION := "\\\n"

  /** A backslash and a newline become a space, wherever they stand. */
  lemma {:induction false} ContinuedAt(a: string, b: string)
    ensures Continued(a + (CONTINUATION + b)) == Continued(a) + (" " + Continued(b))
    decreases |a|
  {
    var rest := CONTINUATION + b;
    assert rest[..2] == CONTINUATION && rest[2..] == b;
    if |a| == 0 {
      assert a + rest == rest;
    } else if |a| > 1 && a[..2] == CONTINUATION {
      assert (a + rest)[2..] == a[2..] + rest;
      ContinuedAt(a[2..], b);
      Assoc(" ", Continued(a[2..]), " " + Continued(b));
    } else {
      Rest(a, rest);
      assert |a| == 1 ==> rest[0] != '\n';
      ContinuedAt(a[1..], b);
      Assoc([a[0]], Continued(a[1..]), " " + Continued(b));
    }
  }

  /** And nothing else changes. */
  lemma {:induction false} ContinuedElsewhere(s: string)
    requires forall i | 0 <= i < |s| - 1 :: !(s[i] == '\\' && s[i + 1] == '\n')
    ensures Continued(s) == s
  {
    if |s| != 0 { ContinuedElsewhere(s[1..]); }
  }

  method LogicalLines(script: string) returns (logical: seq<string>)
    ensures exists groups ::
      Grouping(SplitLines(Continued(Join(Keep(SplitLines(script), [])))), groups) && logical == Joined(groups)
  {
    var kept := WithoutHeredocs(script);
    logical := GroupLines(SplitLines(Continued(Join(kept))));
  }
}
