/** What a scan keeps, said of the text alone: which positions are escaped, which lie
    inside a quote, and which belong to a comment. */
module ShellComments {
  import opened PyText
  import opened Sequences
  import opened ShellScan

  predicate MarkOf(c: char, q: Quote) { (q.Single? && c == '\'') || (q.Double? && c == '\"') }

  /** White space, or one of the operator characters. */
  predicate EndsWord(c: char) {
    IsSpace(c) || c == ';' || c == '&' || c == '|' || c == '(' || c == ')' || c == '<' || c == '>'
  }

  /** A backslash stands before this position, and counts. */
  ghost predicate Escaped(text: string, open: Quote, i: int)
    decreases i, 0
  {
    0 < i <= |text| && Escapes(text, open, i - 1)
  }

  /** A backslash counts unless it is escaped itself, or inside single quotes or a comment. */
  ghost predicate Escapes(text: string, open: Quote, i: int)
    decreases i, 4
  {
    && 0 <= i < |text| && text[i] == '\\'
    && !Escaped(text, open, i) && !Within(text, open, Single, i) && !InComment(text, open, i)
  }

  /** A mark opens a quote unless it is escaped, quoted or in a comment. */
  ghost predicate Opens(text: string, open: Quote, o: int)
    decreases o, 4
  {
    && 0 <= o < |text| && !Escaped(text, open, o) && !InComment(text, open, o)
    && !Within(text, open, Single, o) && !Within(text, open, Double, o)
  }

  /** A quote of this kind is open at the start or opened before this position, and no
      unescaped mark of the same kind closes it between. */
  ghost predicate Within(text: string, open: Quote, q: Quote, i: int)
    decreases i, 1
  {
    && 0 <= i <= |text| && q != NoQuote
    && (|| (open == q && StaysOpen(text, open, q, 0, i))
        || exists o | 0 <= o < i :: MarkOf(text[o], q) && Opens(text, open, o) && StaysOpen(text, open, q, o + 1, i))
  }

  ghost predicate StaysOpen(text: string, open: Quote, q: Quote, from: int, i: int)
    requires 0 <= from <= i <= |text|
    decreases i, 0
  {
    forall k | from <= k < i && MarkOf(text[k], q) :: Escaped(text, open, k)
  }

  /** A `#` begins a comment where a word begins, unless it is escaped or quoted. */
  ghost predicate Begins(text: string, open: Quote, j: int)
    decreases j, 2
  {
    && 0 <= j < |text| && text[j] == '#' && (j == 0 || EndsWord(text[j - 1]))
    && !Escaped(text, open, j) && !Within(text, open, Single, j) && !Within(text, open, Double, j)
  }

  /** A comment begins here or before on the same line. */
  ghost predicate InComment(text: string, open: Quote, i: int)
    decreases i, 3
  {
    0 <= i < |text| && exists j | 0 <= j <= i :: text[j] == '#' && Begins(text, open, j) && OneLine(text, j, i)
  }

  predicate OneLine(text: string, j: int, i: int)
    requires 0 <= j <= i < |text|
  {
    forall k | j <= k <= i :: text[k] != '\n'
  }

  // --- one character further ---

  lemma CommentNext(text: string, open: Quote, i: int)
    requires 0 <= i < |text|
    ensures InComment(text, open, i)
      <==> text[i] != '\n' && (Begins(text, open, i) || InComment(text, open, i - 1))
  {
    if InComment(text, open, i) {
      var j :| 0 <= j <= i && text[j] == '#' && Begins(text, open, j) && OneLine(text, j, i);
      if j < i { assert OneLine(text, j, i - 1); }
    }
    if text[i] != '\n' && InComment(text, open, i - 1) {
      var j :| 0 <= j <= i - 1 && text[j] == '#' && Begins(text, open, j) && OneLine(text, j, i - 1);
      assert OneLine(text, j, i);
    }
    if text[i] != '\n' && Begins(text, open, i) { assert OneLine(text, i, i); }
  }

  lemma WithinNext(text: string, open: Quote, q: Quote, i: int)
    requires 0 <= i < |text| && q != NoQuote
    ensures Within(text, open, q, i + 1) <==>
      || (MarkOf(text[i], q) && Opens(text, open, i))
      || (Within(text, open, q, i) && (MarkOf(text[i], q) ==> Escaped(text, open, i)))
  {
    if Within(text, open, q, i + 1) && !(open == q && StaysOpen(text, open, q, 0, i + 1)) {
      var o :| 0 <= o < i + 1 && MarkOf(text[o], q) && Opens(text, open, o) && StaysOpen(text, open, q, o + 1, i + 1);
      if o < i { assert StaysOpen(text, open, q, o + 1, i); }
    }
    if Opens(text, open, i) { assert StaysOpen(text, open, q, i + 1, i + 1); }
    if Within(text, open, q, i) && (MarkOf(text[i], q) ==> Escaped(text, open, i)) {
      if !(open == q && StaysOpen(text, open, q, 0, i)) {
        var o :| 0 <= o < i && MarkOf(text[o], q) && Opens(text, open, o) && StaysOpen(text, open, q, o + 1, i);
        assert StaysOpen(text, open, q, o + 1, i + 1);
      }
    }
  }

  lemma WithinFirst(text: string, open: Quote, q: Quote)
    requires q != NoQuote
    ensures Within(text, open, q, 0) <==> open == q
  {
  }

  /** The scan's state is what the text says of the position it has reached. */
  ghost predicate Reads(text: string, open: Quote, i: nat, s: State)
    requires i <= |text|
  {
    && (s.escaped <==> Escaped(text, open, i)) && (s.inComment <==> InComment(text, open, i - 1))
    && (s.quote == Single <==> Within(text, open, Single, i))
    && (s.quote == Double <==> Within(text, open, Double, i))
    && CommentOk(s) && (!s.inComment ==> s.previous == if i == 0 then ' ' else text[i - 1])
  }

  lemma ReadsNext(text: string, open: Quote, i: nat, s: State)
    requires i < |text| && Reads(text, open, i, s)
    ensures Reads(text, open, i + 1, Step(s, text[i])) && (Keeps(s, text[i]) <==> !InComment(text, open, i))
  {
    CommentNext(text, open, i);
    WithinNext(text, open, Single, i);
    WithinNext(text, open, Double, i);
    assert EndsWord(s.previous) <==> StartsWord(s.previous);
  }

  /** The first `i` characters without the comments. */
  ghost function Spared(text: string, open: Quote, i: nat): string
    requires i <= |text|
  {
    if i == 0 then "" else Spared(text, open, i - 1) + if InComment(text, open, i - 1) then "" else [text[i - 1]]
  }

  lemma {:induction false} ReadsAt(text: string, open: Quote, i: nat)
    requires i <= |text|
    ensures Reads(text, open, i, After(Start(open), text[..i]))
    ensures Kept(Start(open), text[..i]) == Spared(text, open, i)
  {
    if i == 0 {
      WithinFirst(text, open, Single);
      WithinFirst(text, open, Double);
    } else {
      ReadsAt(text, open, i - 1);
      var before, c := text[..i - 1], text[i - 1];
      var s := After(Start(open), before);
      ReadsNext(text, open, i - 1, s);
      assert text[..i] == before + [c];
      AfterAppend(Start(open), before, [c]);
      KeptAppend(Start(open), before, [c]);
      assert After(s, [c]) == Step(s, c) && Kept(s, [c]) == if Keeps(s, c) then [c] else "";
    }
  }

  /** A scan drops exactly the positions that lie in a comment, and leaves open exactly the
      quote the text leaves open. */
  lemma ScanDropsTheComments(text: string, open: Quote)
    ensures Scan(text, open).kept == Spared(text, open, |text|)
    ensures Scan(text, open).quote == Single <==> Within(text, open, Single, |text|)
    ensures Scan(text, open).quote == Double <==> Within(text, open, Double, |text|)
  {
    ReadsAt(text, open, |text|);
    assert text[..|text|] == text;
  }

  lemma {:induction false} NothingDropped(text: string, open: Quote, i: nat)
    requires i <= |text| && forall j | 0 <= j < |text| && text[j] == '#' :: 0 < j && !EndsWord(text[j - 1])
    ensures !InComment(text, open, i - 1) && Spared(text, open, i) == text[..i]
  {
    if i != 0 {
      NothingDropped(text, open, i - 1);
      CommentNext(text, open, i - 1);
      Snoc(text, i - 1);
    }
  }

  /** A text in which every `#` comes inside a word, as in `p#frag`, is kept whole. */
  lemma HashesInWordsStay(text: string, open: Quote)
    requires forall j | 0 <= j < |text| && text[j] == '#' :: 0 < j && !EndsWord(text[j - 1])
    ensures Scan(text, open).kept == text
  {
    ScanDropsTheComments(text, open);
    NothingDropped(text, open, |text|);
    assert text[..|text|] == text;
  }
}
