/** Mid-turn text, forwarded once a tool call proves it was not the final answer. */
module InterimRelays {
  import opened PyText
  import opened Sequences

  datatype Block = Text(text: string) | ToolUse | Other

  /** One line of the agent's stream; `main` for the main agent's own messages. */
  datatype Message = Message(main: bool, blocks: seq<Block>)

  /** The main agent's blocks, whatever messages they came in. */
  function Blocks(msgs: seq<Message>): seq<Block> {
    if |msgs| == 0 then []
    else (if msgs[0].main then msgs[0].blocks else []) + Blocks(msgs[1..])
  }

  /** The stripped, non-empty texts. */
  function Texts(blocks: seq<Block>): seq<string> {
    if |blocks| == 0 then []
    else if blocks[0].Text? && |Strip(blocks[0].text)| != 0 then [Strip(blocks[0].text)] + Texts(blocks[1..])
    else Texts(blocks[1..])
  }

  /** `cut` is just after the last tool call, 0 when there is none. */
  ghost predicate AfterLastTool(blocks: seq<Block>, cut: nat) {
    && cut <= |blocks|
    && (cut > 0 ==> blocks[cut - 1].ToolUse?)
    && forall i | cut <= i < |blocks| :: !blocks[i].ToolUse?
  }

  /** What is emitted and pending after `blocks`. */
  ghost predicate Relayed(blocks: seq<Block>, emitted: seq<string>, pending: seq<string>) {
    exists cut: nat :: AfterLastTool(blocks, cut)
      && emitted == Texts(blocks[..cut]) && pending == Texts(blocks[cut..])
  }

  lemma {:induction false} TextsAppend(a: seq<Block>, b: seq<Block>)
    ensures Texts(a + b) == Texts(a) + Texts(b)
  {
    if |a| == 0 {
      assert a + b == b;
    } else {
      Rest(a, b);
      TextsAppend(a[1..], b);
      if a[0].Text? && |Strip(a[0].text)| != 0 { Assoc([Strip(a[0].text)], Texts(a[1..]), Texts(b)); }
    }
  }

  /** A text block that is not all white space gives its text without the white space
      around it, any other block nothing. */
  lemma TextsOfOne(b: Block)
    ensures b.Text? && !Blank(b.text) ==> Texts([b]) == [Strip(b.text)]
    ensures !b.Text? || Blank(b.text) ==> Texts([b]) == []
  {
    assert [b][1..] == [];
    if b.Text? {
      var s := b.text;
      var i, j := StripMeaning(s);
      if |Strip(s)| == 0 {
        forall k | 0 <= k < |s| ensures IsSpace(s[k]) {
          assert s[k] == if k < i then s[..i][k] else s[j..][k - j];
        }
      }
    }
  }

  /** No text is lost, doubled or reordered, and what is pending is exactly what
      follows the last tool call. */
  lemma RelayedIsEverything(blocks: seq<Block>, emitted: seq<string>, pending: seq<string>)
    requires Relayed(blocks, emitted, pending)
    ensures emitted + pending == Texts(blocks)
    ensures (forall i | 0 <= i < |blocks| :: !blocks[i].ToolUse?) ==> emitted == []
    ensures |blocks| != 0 && blocks[|blocks| - 1].ToolUse? ==> pending == []
  {
    var cut: nat :| AfterLastTool(blocks, cut)
      && emitted == Texts(blocks[..cut]) && pending == Texts(blocks[cut..]);
    TextsAppend(blocks[..cut], blocks[cut..]);
    assert blocks[..cut] + blocks[cut..] == blocks;
  }

  /** How the two lists follow one block. */
  lemma RelayedStep(blocks: seq<Block>, emitted: seq<string>, pending: seq<string>, b: Block)
    requires Relayed(blocks, emitted, pending)
    ensures b.ToolUse? ==> Relayed(blocks + [b], emitted + pending, [])
    ensures !b.ToolUse? ==> Relayed(blocks + [b], emitted, pending + Texts([b]))
  {
    var cut: nat :| AfterLastTool(blocks, cut)
      && emitted == Texts(blocks[..cut]) && pending == Texts(blocks[cut..]);
    var more := blocks + [b];
    RelayedIsEverything(blocks, emitted, pending);
    TextsAppend(blocks, [b]);
    if b.ToolUse? {
      assert AfterLastTool(more, |more|) && more[..|more|] == more && more[|more|..] == [];
      assert Texts([b]) == [];
    } else {
      TextsAppend(blocks[cut..], [b]);
      assert more[..cut] == blocks[..cut] && more[cut..] == blocks[cut..] + [b];
      assert AfterLastTool(more, cut);
    }
  }

  class InterimRelay {
    var pending: seq<string>
    ghost var emitted: seq<string>
    ghost var seen: seq<Block>

    ghost predicate Valid()
      reads this
    {
      Relayed(seen, emitted, pending)
    }

    constructor ()
      ensures Valid() && seen == [] && emitted == [] && pending == []
    {
      pending, emitted, seen := [], [], [];
      new;
      assert AfterLastTool([], 0) && seen[..0] == [];
    }

    method FeedBlock(b: Block)
      requires Valid()
      modifies this
      ensures Valid() && seen == old(seen) + [b]
    {
      RelayedStep(seen, emitted, pending, b);
      assert Texts([b]) == if b.Text? && |Strip(b.text)| != 0 then [Strip(b.text)] else [] by {
        assert [b][1..] == [];
      }
      if b.Text? {
        var stripped := Strip(b.text);
        if |stripped| != 0 { pending := pending + [stripped]; } else { assert pending + [] == pending; }
      } else if b.ToolUse? {
        Flush();
      } else {
        assert pending + [] == pending;
      }
      seen := seen + [b];
    }

    /** Whatever the split into messages, the relay's state is a matter of the main
        agent's blocks alone. */
    method Feed(msg: Message)
      requires Valid()
      modifies this
      ensures Valid() && seen == old(seen) + Blocks([msg])
    {
      assert Blocks([msg]) == if msg.main then msg.blocks else [] by { assert [msg][1..] == []; }
      if !msg.main { return; }
      var i := 0;
      while i < |msg.blocks|
        invariant 0 <= i <= |msg.blocks| && Valid()
        invariant seen == old(seen) + msg.blocks[..i]
      {
        FeedBlock(msg.blocks[i]);
        i := i + 1;
      }
    }

    method Flush()
      modifies `pending, `emitted
      ensures emitted == old(emitted) + old(pending) && pending == []
    {
      var i := 0;
      while i < |pending|
        invariant 0 <= i <= |pending| && pending == old(pending)
        invariant emitted == old(emitted) + pending[..i]
      {
        emitted := emitted + [pending[i]];
        i := i + 1;
      }
      assert pending[..|pending|] == pending;
      pending := [];
    }
  }
}
