/** A second run of a file migration, and the migration as updates of a tree in place. */
module MigrationRepeat {
  import opened MigrationFiles

  /** Both names an entry could take are taken, or its directory cannot be made. */
  predicate Blocked(tree: Tree, name: string, dir: Dir, key: string) {
    !ParentOk(tree, dir) || (Path(dir, name) in tree && Path(dir, Suffixed(name, key)) in tree)
  }

  /** Everything in the new workspace stays as it is. */
  ghost predicate NewGrows(tree: Tree, after: Tree) {
    forall p: Path | p in tree && IsNew(p.dir) :: p in after && after[p] == tree[p]
  }

  predicate Same(tree: Tree, after: Tree, p: Path) {
    (p in after <==> p in tree) && (p in tree ==> after[p] == tree[p])
  }

  lemma BlockedPersists(tree: Tree, after: Tree, name: string, dir: Dir, key: string)
    requires NewGrows(tree, after) && IsNew(dir) && Blocked(tree, name, dir, key)
    ensures Blocked(after, name, dir, key)
  {
  }

  // --- one directory ---

  /** What a move of one entry leaves alone, and that it is stuck if it stays. */
  lemma MoveFreeFrame(tree: Tree, source: Path, dir: Dir, key: string, t: Trouble)
    requires IsNew(dir) && !IsNew(source.dir)
    ensures var after := MoveFree(tree, source, dir, key, t);
      && NewGrows(tree, after)
      && (forall p: Path | p != source && !IsNew(p.dir) :: Same(tree, after, p))
      && (source in after ==> source in tree && after[source] == tree[source])
      && (t.refused == {} && source in after ==> Blocked(after, source.name, dir, key))
      && (source in tree && Blocked(tree, source.name, dir, key) ==> after == tree)
  {
  }

  /** `MoveAll` leaves other old directories alone, takes nothing back, and leaves only
      what is stuck. */
  lemma {:induction false} MoveAllFrame(tree: Tree, from: Dir, names: seq<string>, dir: Dir, key: string, t: Trouble)
    requires IsNew(dir) && !IsNew(from)
    ensures var after := MoveAll(tree, from, names, dir, key, t);
      && NewGrows(tree, after)
      && (forall p: Path | p.dir != from && !IsNew(p.dir) :: Same(tree, after, p))
      && (forall p: Path | p.dir == from && p in after :: p in tree && after[p] == tree[p])
      && (forall p: Path | p.dir == from && p.name !in names :: Same(tree, after, p))
    decreases |names|
  {
    if |names| != 0 {
      var source := Path(from, names[0]);
      MoveFreeFrame(tree, source, dir, key, t);
      MoveAllFrame(MoveFree(tree, source, dir, key, t), from, names[1..], dir, key, t);
    }
  }

  lemma {:induction false} MoveAllBlocks(tree: Tree, from: Dir, names: seq<string>, dir: Dir, key: string, t: Trouble)
    requires IsNew(dir) && !IsNew(from) && t.refused == {}
    ensures var after := MoveAll(tree, from, names, dir, key, t);
      forall n | n in names && Path(from, n) in after :: Blocked(after, n, dir, key)
    decreases |names|
  {
    if |names| != 0 {
      var source := Path(from, names[0]);
      var next := MoveFree(tree, source, dir, key, t);
      var after := MoveAll(next, from, names[1..], dir, key, t);
      MoveFreeFrame(tree, source, dir, key, t);
      MoveAllFrame(next, from, names[1..], dir, key, t);
      MoveAllBlocks(next, from, names[1..], dir, key, t);
      if source in after { BlockedPersists(next, after, names[0], dir, key); }
      assert forall n | n in names :: n == names[0] || n in names[1..];
    }
  }

  lemma {:induction false} MoveAllIdle(tree: Tree, from: Dir, names: seq<string>, dir: Dir, key: string, t: Trouble)
    requires forall n | n in names && Path(from, n) in tree :: Blocked(tree, n, dir, key)
    ensures MoveAll(tree, from, names, dir, key, t) == tree
    decreases |names|
  {
    if |names| != 0 {
      assert names[0] in names;
      assert MoveFree(tree, Path(from, names[0]), dir, key, t) == tree;
      MoveAllIdle(tree, from, names[1..], dir, key, t);
    }
  }

  lemma InNotSent(names: seq<string>, n: string)
    ensures n in NotSent(names) <==> n in names && n != SENT
  {
    if |names| != 0 { InNotSent(names[1..], n); }
  }

  // --- the outbox ---

  /** Nothing in the archive can be moved, and the archive is not empty. */
  ghost predicate SentDone(tree: Tree, key: string) {
    IsDirectory(tree, Path(OldOutbox, SENT)) ==>
      && HasEntries(tree, OldSent)
      && forall p: Path | p in tree && p.dir.OldSent? :: Blocked(tree, p.name, NewSent, key)
  }

  ghost predicate OutboxDone(tree: Tree, key: string) {
    && HasEntries(tree, OldOutbox)
    && (forall p: Path | p in tree && p.dir.OldOutbox? && p.name != SENT :: Blocked(tree, p.name, NewRoot, key))
    && SentDone(tree, key)
  }

  /** The listing names everything there is. */
  ghost predicate Covers(l: Listing, tree: Tree) {
    forall p: Path | p in tree ::
      && (p.dir.OldRoot? ==> p.name in l.root)
      && (p.dir.OldOutbox? ==> p.name in l.outbox)
      && (p.dir.OldSent? ==> p.name in l.sent)
  }

  /** What merging the archive leaves alone, and what it leaves. */
  lemma MergeSentFrame(tree: Tree, names: seq<string>, key: string, t: Trouble)
    ensures var after := MergeSent(tree, names, key, t);
      && NewGrows(tree, after)
      && (forall p: Path | !IsNew(p.dir) && !p.dir.OldSent? && p != Path(OldOutbox, SENT) :: Same(tree, after, p))
      && (forall p: Path | !IsNew(p.dir) && p in after :: p in tree && after[p] == tree[p])
  {
    MoveAllFrame(tree, OldSent, names, NewSent, key, t);
  }

  lemma MergeSentDone(tree: Tree, names: seq<string>, key: string, t: Trouble)
    requires t.refused == {} && forall p: Path | p in tree && p.dir.OldSent? :: p.name in names
    ensures SentDone(MergeSent(tree, names, key, t), key)
  {
    if IsDirectory(tree, Path(OldOutbox, SENT)) {
      var moved := MoveAll(tree, OldSent, names, NewSent, key, t);
      MoveAllFrame(tree, OldSent, names, NewSent, key, t);
      MoveAllBlocks(tree, OldSent, names, NewSent, key, t);
      var after := MergeSent(tree, names, key, t);
      if after != moved { assert Path(OldOutbox, SENT) !in after; }
      forall p: Path | p in moved && p.dir.OldSent? ensures Blocked(moved, p.name, NewSent, key) {
        assert p == Path(OldSent, p.name);
      }
    }
  }

  lemma SentDonePersists(tree: Tree, after: Tree, key: string)
    requires SentDone(tree, key) && NewGrows(tree, after) && Same(tree, after, Path(OldOutbox, SENT))
    requires forall p: Path | p.dir.OldSent? :: Same(tree, after, p)
    ensures SentDone(after, key)
  {
    if IsDirectory(after, Path(OldOutbox, SENT)) {
      var p :| p in tree && p.dir == OldSent;
      assert p in after;
      forall q | q in after && q.dir.OldSent? ensures Blocked(after, q.name, NewSent, key) {
        assert Same(tree, after, q);
        BlockedPersists(tree, after, q.name, NewSent, key);
      }
    }
  }

  lemma MergeOutboxFrame(tree: Tree, l: Listing, key: string, t: Trouble)
    ensures var after := MergeOutbox(tree, l, key, t);
      && NewGrows(tree, after)
      && (forall p: Path | !IsNew(p.dir) && !p.dir.OldSent? && !p.dir.OldOutbox? && p != Path(OldRoot, OUTBOX) ::
            Same(tree, after, p))
      && (forall p: Path | !IsNew(p.dir) && p in after :: p in tree && after[p] == tree[p])
  {
    MergeSentFrame(tree, l.sent, key, t);
    MoveAllFrame(MergeSent(tree, l.sent, key, t), OldOutbox, NotSent(l.outbox), NewRoot, key, t);
  }

  lemma MergeOutboxDone(tree: Tree, l: Listing, key: string, t: Trouble)
    requires t.refused == {} && Covers(l, tree)
    ensures var after := MergeOutbox(tree, l, key, t);
      Path(OldRoot, OUTBOX) in after ==> OutboxDone(after, key)
  {
    var sent := MergeSent(tree, l.sent, key, t);
    var moved := MoveAll(sent, OldOutbox, NotSent(l.outbox), NewRoot, key, t);
    MergeSentFrame(tree, l.sent, key, t);
    MergeSentDone(tree, l.sent, key, t);
    MoveAllFrame(sent, OldOutbox, NotSent(l.outbox), NewRoot, key, t);
    MoveAllBlocks(sent, OldOutbox, NotSent(l.outbox), NewRoot, key, t);
    InNotSent(l.outbox, SENT);
    SentDonePersists(sent, moved, key);
    forall p: Path | p in moved && p.dir.OldOutbox? && p.name != SENT ensures Blocked(moved, p.name, NewRoot, key) {
      InNotSent(l.outbox, p.name);
      assert p == Path(OldOutbox, p.name);
    }
  }

  lemma MergeOutboxIdle(tree: Tree, l: Listing, key: string, t: Trouble)
    requires OutboxDone(tree, key)
    ensures MergeOutbox(tree, l, key, t) == tree
  {
    if IsDirectory(tree, Path(OldOutbox, SENT)) { MoveAllIdle(tree, OldSent, l.sent, NewSent, key, t); }
    assert MergeSent(tree, l.sent, key, t) == tree;
    forall n | n in NotSent(l.outbox) && Path(OldOutbox, n) in tree ensures Blocked(tree, n, NewRoot, key) {
      InNotSent(l.outbox, n);
    }
    MoveAllIdle(tree, OldOutbox, NotSent(l.outbox), NewRoot, key, t);
  }

  // --- the root ---

  /** Nothing is left to do for one root entry. */
  ghost predicate Done(tree: Tree, name: string, personas: set<string>, key: string) {
    Path(OldRoot, name) in tree ==>
      && !IsPersona(tree, name, personas)
      && (if name == OUTBOX && IsDirectory(tree, Path(OldRoot, OUTBOX)) then OutboxDone(tree, key)
          else if name == LEGACY && IsDirectory(tree, Path(OldRoot, LEGACY)) then HasEntries(tree, LegacyStore)
          else Blocked(tree, name, NewRoot, key))
  }

  /** What one root entry's turn leaves alone. */
  ghost predicate Framed(tree: Tree, after: Tree, name: string) {
    && NewGrows(tree, after)
    && (forall p: Path | p.dir.OldRoot? && p.name != name :: Same(tree, after, p))
    && (forall p: Path | p.dir.LegacyStore? :: Same(tree, after, p))
    && (name != OUTBOX ==> forall p: Path | p.dir.OldOutbox? || p.dir.OldSent? :: Same(tree, after, p))
    && (forall p: Path | !IsNew(p.dir) && p in after :: p in tree && after[p] == tree[p])
  }

  lemma RemoveFrame(tree: Tree, name: string, dir: Dir)
    ensures Framed(tree, tree - {Path(OldRoot, name)}, name)
    ensures Framed(tree, RemoveIfEmpty(tree, Path(OldRoot, name), dir), name)
  {
  }

  lemma OutboxFrame(tree: Tree, l: Listing, key: string, t: Trouble)
    ensures Framed(tree, MergeOutbox(tree, l, key, t), OUTBOX)
  {
    MergeOutboxFrame(tree, l, key, t);
  }

  lemma MovedFrame(tree: Tree, name: string, key: string, t: Trouble)
    ensures Framed(tree, MoveFree(tree, Path(OldRoot, name), NewRoot, key, t), name)
  {
    MoveFreeFrame(tree, Path(OldRoot, name), NewRoot, key, t);
  }

  lemma EntryFrame(tree: Tree, name: string, personas: set<string>, l: Listing, key: string, t: Trouble)
    ensures Framed(tree, MoveEntry(tree, name, personas, l, key, t), name)
  {
    RemoveFrame(tree, name, LegacyStore);
    OutboxFrame(tree, l, key, t);
    MovedFrame(tree, name, key, t);
  }

  lemma EntryDone(tree: Tree, name: string, personas: set<string>, l: Listing, key: string, t: Trouble)
    requires t.refused == {} && Covers(l, tree)
    ensures Done(MoveEntry(tree, name, personas, l, key, t), name, personas, key)
  {
    var after := MoveEntry(tree, name, personas, l, key, t);
    EntryFrame(tree, name, personas, l, key, t);
    MergeOutboxDone(tree, l, key, t);
    MoveFreeFrame(tree, Path(OldRoot, name), NewRoot, key, t);
  }

  lemma EntryIdle(tree: Tree, name: string, personas: set<string>, l: Listing, key: string, t: Trouble)
    requires Done(tree, name, personas, key)
    ensures MoveEntry(tree, name, personas, l, key, t) == tree
  {
    if Path(OldRoot, name) in tree {
      if name == OUTBOX && IsDirectory(tree, Path(OldRoot, OUTBOX)) {
        MergeOutboxIdle(tree, l, key, t);
      } else if !(name == LEGACY && IsDirectory(tree, Path(OldRoot, LEGACY))) {
        MoveFreeFrame(tree, Path(OldRoot, name), NewRoot, key, t);
      }
    }
  }

  lemma OutboxDonePersists(tree: Tree, after: Tree, key: string)
    requires OutboxDone(tree, key) && NewGrows(tree, after)
    requires forall p: Path | p.dir.OldOutbox? || p.dir.OldSent? :: Same(tree, after, p)
    ensures OutboxDone(after, key)
  {
    var p :| p in tree && p.dir == OldOutbox;
    assert p in after;
    SentDonePersists(tree, after, key);
    forall q | q in after && q.dir.OldOutbox? && q.name != SENT ensures Blocked(after, q.name, NewRoot, key) {
      assert Same(tree, after, q);
      BlockedPersists(tree, after, q.name, NewRoot, key);
    }
  }

  lemma DonePersists(tree: Tree, name: string, other: string, personas: set<string>, l: Listing, key: string,
                     t: Trouble)
    requires Done(tree, other, personas, key)
    ensures Done(MoveEntry(tree, name, personas, l, key, t), other, personas, key)
  {
    if name == other {
      EntryIdle(tree, name, personas, l, key, t);
    } else {
      var after := MoveEntry(tree, name, personas, l, key, t);
      EntryFrame(tree, name, personas, l, key, t);
      var p := Path(OldRoot, other);
      assert Same(tree, after, p);
      if p in after {
        if other == OUTBOX && IsDirectory(tree, p) {
          OutboxDonePersists(tree, after, key);
        } else if other == LEGACY && IsDirectory(tree, p) {
          var q :| q in tree && q.dir == LegacyStore;
          assert Same(tree, after, q);
        } else {
          BlockedPersists(tree, after, other, NewRoot, key);
        }
      }
    }
  }

  lemma CoversPersists(l: Listing, tree: Tree, after: Tree)
    requires Covers(l, tree) && forall p: Path | !IsNew(p.dir) && p in after :: p in tree
    ensures Covers(l, after)
  {
  }

  lemma {:induction false} EntriesDone(tree: Tree, names: seq<string>, personas: set<string>, l: Listing, key: string,
                                       t: Trouble, done: set<string>)
    requires t.refused == {} && Covers(l, tree)
    requires forall n | n in done :: Done(tree, n, personas, key)
    ensures var after := MoveEntries(tree, names, personas, l, key, t);
      && (forall n | n in done || n in names :: Done(after, n, personas, key))
      && (forall p: Path | !IsNew(p.dir) && p in after :: p in tree)
    decreases |names|
  {
    if |names| != 0 {
      var next := MoveEntry(tree, names[0], personas, l, key, t);
      EntryFrame(tree, names[0], personas, l, key, t);
      EntryDone(tree, names[0], personas, l, key, t);
      forall n | n in done ensures Done(next, n, personas, key) {
        DonePersists(tree, names[0], n, personas, l, key, t);
      }
      CoversPersists(l, tree, next);
      EntriesDone(next, names[1..], personas, l, key, t, done + {names[0]});
      assert forall n | n in names :: n == names[0] || n in names[1..];
    }
  }

  lemma {:induction false} EntriesIdle(tree: Tree, names: seq<string>, personas: set<string>, l: Listing, key: string,
                                       t: Trouble)
    requires forall n :: Done(tree, n, personas, key)
    ensures MoveEntries(tree, names, personas, l, key, t) == tree
    decreases |names|
  {
    if |names| != 0 {
      EntryIdle(tree, names[0], personas, l, key, t);
      EntriesIdle(tree, names[1..], personas, l, key, t);
    }
  }

  /** When no move is refused, a second migration changes nothing: what the first one
      left behind is exactly what cannot be moved. */
  lemma SecondRunChangesNothing(tree: Tree, personas: set<string>, l: Listing, again: Listing, key: string,
                                t: Trouble, later: Trouble)
    requires t.refused == {} && Covers(l, tree)
    ensures var once := MoveFiles(tree, personas, l, key, t);
      && MoveFiles(once, personas, again, key, later) == once
      && (forall n | Path(OldRoot, n) in once && !IsDirectory(once, Path(OldRoot, n)) ::
            Path(NewRoot, n) in once && Path(NewRoot, Suffixed(n, key)) in once)
  {
    var once := MoveFiles(tree, personas, l, key, t);
    EntriesDone(tree, l.root, personas, l, key, t, {});
    forall n ensures Done(once, n, personas, key) {
      if Path(OldRoot, n) in once { assert Path(OldRoot, n) in tree; }
    }
    EntriesIdle(once, again.root, personas, again, key, later);
  }

  /** What is left when no move is refused: no persona link; in the outbox and its archive
      only entries whose names are taken where they belong; and neither directory, nor
      the legacy store, once it is empty. */
  lemma WhatStays(tree: Tree, personas: set<string>, l: Listing, key: string, t: Trouble)
    requires t.refused == {} && Covers(l, tree)
    ensures var once := MoveFiles(tree, personas, l, key, t);
      && (forall n | n in personas && Path(OldRoot, n) in once :: !once[Path(OldRoot, n)].kind.Link?)
      && (IsDirectory(once, Path(OldRoot, OUTBOX)) ==>
            && (exists p :: p in once && p.dir.OldOutbox?)
            && (IsDirectory(once, Path(OldOutbox, SENT)) ==> exists p :: p in once && p.dir.OldSent?)
            && forall n | n != SENT && Path(OldOutbox, n) in once ::
                 Path(NewRoot, n) in once && Path(NewRoot, Suffixed(n, key)) in once)
      && (IsDirectory(once, Path(OldRoot, LEGACY)) ==> exists p :: p in once && p.dir.LegacyStore?)
  {
    var once := MoveFiles(tree, personas, l, key, t);
    EntriesDone(tree, l.root, personas, l, key, t, {});
    forall n ensures Done(once, n, personas, key) {
      if Path(OldRoot, n) in once { assert Path(OldRoot, n) in tree; }
    }
    assert Done(once, OUTBOX, personas, key) && Done(once, LEGACY, personas, key);
    if IsDirectory(once, Path(OldRoot, OUTBOX)) {
      assert HasEntries(once, OldOutbox);
      forall n | n != SENT && Path(OldOutbox, n) in once
        ensures Path(NewRoot, n) in once && Path(NewRoot, Suffixed(n, key)) in once
      {
        assert Blocked(once, Path(OldOutbox, n).name, NewRoot, key);
      }
    }
  }

  // --- what counts as moved ---

  /** An entry whose leaving counts: not the two directories that go when they are empty,
      not a persona link that is dropped, not the legacy store. */
  predicate Counts(tree: Tree, p: Path, personas: set<string>) {
    || p.dir.OldSent?
    || (p.dir.OldOutbox? && p.name != SENT)
    || (p.dir.OldRoot? && !IsPersona(tree, p.name, personas)
        && !((p.name == OUTBOX || p.name == LEGACY) && IsDirectory(tree, p)))
  }

  ghost predicate LeftOld(before: Tree, after: Tree, personas: set<string>) {
    exists p :: p in before && p !in after && Counts(before, p, personas)
  }

  /** An entry of this directory left. */
  ghost predicate LeftFrom(before: Tree, after: Tree, from: Dir) {
    exists p: Path :: p.dir == from && p in before && p !in after
  }

  /** What left the outbox and its archive is what left in one of the two loops. */
  lemma LeftOutbox(a: Tree, b: Tree, c: Tree, names: seq<string>, key: string, t: Trouble, personas: set<string>)
    requires IsDirectory(a, Path(OldRoot, OUTBOX))
    requires forall p: Path | !IsNew(p.dir) && !p.dir.OldSent? && p != Path(OldOutbox, SENT) :: Same(a, b, p)
    requires c == MoveAll(b, OldOutbox, NotSent(names), NewRoot, key, t)
    requires forall p: Path | p.dir.OldSent? && p in b :: p in a
    ensures LeftOld(a, RemoveIfEmpty(c, Path(OldRoot, OUTBOX), OldOutbox), personas)
      <==> LeftFrom(a, b, OldSent) || LeftFrom(b, c, OldOutbox)
  {
    var d := RemoveIfEmpty(c, Path(OldRoot, OUTBOX), OldOutbox);
    MoveAllFrame(b, OldOutbox, NotSent(names), NewRoot, key, t);
    InNotSent(names, SENT);
    assert Same(b, c, Path(OldOutbox, SENT));
    if LeftFrom(a, b, OldSent) {
      var p: Path :| p.dir == OldSent && p in a && p !in b;
      assert Same(b, c, p) && p !in d;
      assert Counts(a, p, personas);
    }
    if LeftFrom(b, c, OldOutbox) {
      var p: Path :| p.dir == OldOutbox && p in b && p !in c;
      assert p.name != SENT && Same(a, b, p) && p !in d;
      assert Counts(a, p, personas);
    }
    if LeftOld(a, d, personas) {
      var p :| p in a && p !in d && Counts(a, p, personas);
      if p.dir.OldSent? { assert Same(b, c, p); }
      else { assert Same(a, b, p); }
    }
  }

  /** A later part of a migration adds to what left, and takes nothing back. */
  lemma LeftMore(was: Tree, before: Tree, after: Tree, name: string, personas: set<string>)
    requires Framed(before, after, name) && Same(was, before, Path(OldRoot, name))
    requires forall p: Path | !IsNew(p.dir) && p in before :: p in was && was[p] == before[p]
    ensures LeftOld(was, after, personas) <==> LeftOld(was, before, personas) || LeftOld(before, after, personas)
    ensures forall p: Path | !IsNew(p.dir) && p in after :: p in was && was[p] == after[p]
  {
    if LeftOld(was, before, personas) {
      var p :| p in was && p !in before && Counts(was, p, personas);
      assert p !in after;
    }
    if LeftOld(before, after, personas) {
      var p :| p in before && p !in after && Counts(before, p, personas);
      assert Counts(was, p, personas);
    }
    if LeftOld(was, after, personas) {
      var p :| p in was && p !in after && Counts(was, p, personas);
      if p in before { assert Counts(before, p, personas); }
    }
  }

  lemma OneEntryLeft(before: Tree, after: Tree, name: string, personas: set<string>, moved: bool)
    requires Path(OldRoot, name) in before
    requires forall p: Path | p != Path(OldRoot, name) && !IsNew(p.dir) :: Same(before, after, p)
    requires Counts(before, Path(OldRoot, name), personas)
    requires moved <==> Path(OldRoot, name) !in after
    ensures moved <==> LeftOld(before, after, personas)
  {
    if LeftOld(before, after, personas) {
      var p :| p in before && p !in after && Counts(before, p, personas);
      assert !Same(before, after, p);
    }
  }

  // --- in place ---

  class Workspace {
    var tree: Tree

    constructor (tree: Tree)
      ensures this.tree == tree
    {
      this.tree := tree;
    }

    /** `_move`: whether anything moved. */
    method MoveOne(source: Path, target: Path, t: Trouble) returns (moved: bool)
      requires source in tree
      modifies `tree
      ensures tree == Move(old(tree), source, target, t)
      ensures moved <==> target !in old(tree) && source !in t.refused && ParentOk(old(tree), target.dir)
    {
      if target in tree || source in t.refused || !ParentOk(tree, target.dir) { return false; }
      var item := tree[source];
      if target.dir.NewSent? && Path(NewRoot, OUTBOX) !in tree {
        tree := tree[Path(NewRoot, OUTBOX) := Item(t.made, Directory)];
      }
      tree := tree[target := item];
      tree := tree - {source};
      return true;
    }

    /** The loop over one directory's listing. */
    method MoveListed(from: Dir, names: seq<string>, dir: Dir, key: string, t: Trouble) returns (moved: bool)
      requires IsNew(dir) && !IsNew(from)
      modifies `tree
      ensures tree == MoveAll(old(tree), from, names, dir, key, t)
      ensures moved <==> exists p: Path :: p.dir == from && p in old(tree) && p !in tree
    {
      moved := false;
      var i := 0;
      while i < |names|
        invariant 0 <= i <= |names|
        invariant MoveAll(tree, from, names[i..], dir, key, t) == MoveAll(old(tree), from, names, dir, key, t)
        invariant forall p: Path | p.dir == from && p in tree :: p in old(tree)
        invariant moved <==> exists p: Path :: p.dir == from && p in old(tree) && p !in tree
      {
        var source := Path(from, names[i]);
        assert names[i..][1..] == names[i + 1..];
        if source in tree {
          var one := MoveOne(source, FreePath(tree, dir, names[i], key), t);
          moved := one || moved;
        }
        i := i + 1;
      }
    }

    method RemoveDir(p: Path, dir: Dir)
      modifies `tree
      ensures tree == RemoveIfEmpty(old(tree), p, dir)
    {
      if !HasEntries(tree, dir) { tree := tree - {p}; }
    }

    /** The archive's loop and what follows it. */
    method MergeSentInto(l: Listing, key: string, t: Trouble) returns (moved: bool)
      modifies `tree
      ensures tree == MergeSent(old(tree), l.sent, key, t)
      ensures moved <==> LeftFrom(old(tree), tree, OldSent)
    {
      if !IsDirectory(tree, Path(OldOutbox, SENT)) { return false; }
      moved := MoveListed(OldSent, l.sent, NewSent, key, t);
      RemoveDir(Path(OldOutbox, SENT), OldSent);
    }

    method MergeOutboxInto(l: Listing, key: string, t: Trouble, ghost personas: set<string>) returns (moved: bool)
      requires IsDirectory(tree, Path(OldRoot, OUTBOX))
      modifies `tree
      ensures tree == MergeOutbox(old(tree), l, key, t)
      ensures moved <==> LeftOld(old(tree), tree, personas)
    {
      ghost var a := tree;
      moved := MergeSentInto(l, key, t);
      ghost var b := tree;
      MergeSentFrame(a, l.sent, key, t);
      var more := MoveListed(OldOutbox, NotSent(l.outbox), NewRoot, key, t);
      LeftOutbox(a, b, tree, l.outbox, key, t, personas);
      moved := more || moved;
      RemoveDir(Path(OldRoot, OUTBOX), OldOutbox);
    }

    /** `adopted` is what adopting the legacy store reports. */
    method MoveEntryIn(name: string, personas: set<string>, l: Listing, key: string, t: Trouble, adopted: bool)
      returns (moved: bool)
      requires Path(OldRoot, name) in tree
      modifies `tree
      ensures tree == MoveEntry(old(tree), name, personas, l, key, t)
      ensures moved <==>
        LeftOld(old(tree), tree, personas)
        || (adopted && name == LEGACY && IsDirectory(old(tree), Path(OldRoot, LEGACY)))
    {
      ghost var before := tree;
      EntryFrame(before, name, personas, l, key, t);
      if IsPersona(tree, name, personas) {
        tree := tree - {Path(OldRoot, name)};
        moved := false;
      } else if name == OUTBOX && IsDirectory(tree, Path(OldRoot, name)) {
        moved := MergeOutboxInto(l, key, t, personas);
      } else if name == LEGACY && IsDirectory(tree, Path(OldRoot, name)) {
        RemoveDir(Path(OldRoot, name), LegacyStore);
        moved := adopted;
      } else {
        moved := MoveOne(Path(OldRoot, name), FreePath(tree, NewRoot, name, key), t);
        MoveFreeFrame(before, Path(OldRoot, name), NewRoot, key, t);
        OneEntryLeft(before, tree, name, personas, moved);
      }
    }

    /** `_move_files`: true exactly when an entry left the old directory for the new, or
        a legacy store was there and something of it was adopted. */
    method MoveFilesIn(personas: set<string>, l: Listing, key: string, t: Trouble, adopted: bool) returns (moved: bool)
      requires forall n | n in l.root :: Path(OldRoot, n) in tree
      requires forall i, j | 0 <= i < j < |l.root| :: l.root[i] != l.root[j]
      modifies `tree
      ensures tree == MoveFiles(old(tree), personas, l, key, t)
      ensures moved <==>
        LeftOld(old(tree), tree, personas)
        || (adopted && LEGACY in l.root && IsDirectory(old(tree), Path(OldRoot, LEGACY)))
    {
      moved := false;
      ghost var was := tree;
      for i := 0 to |l.root|
        invariant forall k | i <= k < |l.root| :: Same(was, tree, Path(OldRoot, l.root[k]))
        invariant forall p: Path | !IsNew(p.dir) && p in tree :: p in was && was[p] == tree[p]
        invariant MoveEntries(tree, l.root[i..], personas, l, key, t) == MoveFiles(was, personas, l, key, t)
        invariant moved <==>
          LeftOld(was, tree, personas)
          || (adopted && LEGACY in l.root[..i] && IsDirectory(was, Path(OldRoot, LEGACY)))
      {
        var name := l.root[i];
        ghost var before := tree;
        EntryFrame(before, name, personas, l, key, t);
        assert l.root[i..][1..] == l.root[i + 1..] && l.root[..i + 1] == l.root[..i] + [name];
        var one := MoveEntryIn(name, personas, l, key, t, adopted);
        LeftMore(was, before, tree, name, personas);
        moved := one || moved;
        forall k | i < k < |l.root| ensures Same(was, tree, Path(OldRoot, l.root[k])) {
          assert Same(before, tree, Path(OldRoot, l.root[k]));
        }
      }
      assert l.root[..|l.root|] == l.root;
    }
  }
}
