/** Folding the files of a per-thread directory into a shared workspace. */
module MigrationFiles {

  /** The directories a migration reads and writes. */
  datatype Dir = OldRoot | OldOutbox | OldSent | LegacyStore | NewRoot | NewSent

  datatype Path = Path(dir: Dir, name: string)

  datatype Kind = Content | Link | Directory

  /** An entry. `id` tells any two apart; a Directory is only the place its own entries
      are in, and has no content of its own. */
  datatype Item = Item(id: nat, kind: Kind)

  type Tree = map<Path, Item>

  const OUTBOX := "outbox"
  const SENT := ".sent"
  const LEGACY := ".codex_sessions"

  /** The root entries that are not simply moved. */
  predicate IsPersona(tree: Tree, name: string, personas: set<string>) {
    name in personas && Path(OldRoot, name) in tree && tree[Path(OldRoot, name)].kind.Link?
  }

  predicate IsDirectory(tree: Tree, p: Path) { p in tree && tree[p].kind.Directory? }

  predicate HasEntries(tree: Tree, dir: Dir) { exists p :: p in tree && p.dir == dir }

  // --- names ---

  /** The position of the dot a suffix starts at, as `PurePath.suffix` finds it. */
  function LastDot(name: string, i: nat): nat
    requires i <= |name|
  {
    if i == 0 then 0 else if name[i - 1] == '.' then i - 1 else LastDot(name, i - 1)
  }

  function Suffixed(name: string, key: string): string {
    var dot := LastDot(name, |name|);
    if 0 < dot && dot + 1 < |name| then name[..dot] + "-" + key + name[dot..] else name + "-" + key
  }

  /** The name itself, or with the thread key when the directory already has one. */
  function FreePath(tree: Tree, dir: Dir, name: string, key: string): Path {
    if Path(dir, name) !in tree then Path(dir, name) else Path(dir, Suffixed(name, key))
  }

  lemma {:induction false} LastDotAt(stem: string, suffix: string)
    requires '.' !in suffix
    ensures LastDot(stem + "." + suffix, |stem| + 1 + |suffix|) == |stem|
  {
    LastDotFrom(stem, suffix, |suffix|);
  }

  lemma {:induction false} LastDotFrom(stem: string, suffix: string, k: nat)
    requires '.' !in suffix && k <= |suffix|
    ensures LastDot(stem + "." + suffix, |stem| + 1 + k) == |stem|
  {
    var name := stem + "." + suffix;
    assert name[|stem|] == '.';
    if k != 0 {
      assert name[|stem| + k] == suffix[k - 1];
      LastDotFrom(stem, suffix, k - 1);
    }
  }

  /** The thread key goes in front of the last suffix. */
  lemma SuffixedBeforeTheSuffix(stem: string, suffix: string, key: string)
    requires stem != "" && suffix != "" && '.' !in suffix
    ensures Suffixed(stem + "." + suffix, key) == stem + "-" + key + "." + suffix
  {
    LastDotAt(stem, suffix);
    var name := stem + "." + suffix;
    assert name[..|stem|] == stem && name[|stem|..] == "." + suffix;
    assert |name| == |stem| + 1 + |suffix|;
    assert (stem + "-" + key) + ("." + suffix) == stem + "-" + key + "." + suffix;
  }

  lemma {:induction false} NoDot(name: string, i: nat)
    requires i <= |name| && forall k | 0 < k < i :: name[k] != '.'
    ensures LastDot(name, i) == 0
  {
    if i > 1 { NoDot(name, i - 1); }
  }

  /** A name without a suffix, a dot file or a name that ends in its dot, gets it at the
      end. */
  lemma SuffixedAtTheEnd(name: string, key: string)
    requires (forall k | 0 < k < |name| :: name[k] != '.') || (name != "" && name[|name| - 1] == '.')
    ensures Suffixed(name, key) == name + "-" + key
  {
    if forall k | 0 < k < |name| :: name[k] != '.' { NoDot(name, |name|); }
  }

  // --- moves ---

  /** The archive can be made unless a file has the outbox's name. */
  predicate ParentOk(tree: Tree, dir: Dir) {
    dir.NewSent? && Path(NewRoot, OUTBOX) in tree ==> tree[Path(NewRoot, OUTBOX)].kind.Directory?
  }

  /** `mkdir(parents=True)` of the target's directory. */
  function WithParent(tree: Tree, dir: Dir, made: nat): Tree {
    if dir.NewSent? && Path(NewRoot, OUTBOX) !in tree then tree[Path(NewRoot, OUTBOX) := Item(made, Directory)]
    else tree
  }

  /** What fails: the sources whose move the operating system refuses. `made` is the
      identity of a directory made on the way. */
  datatype Trouble = Trouble(refused: set<Path>, made: nat)

  /** `_move`: no overwriting, and a failure leaves the source in place. */
  function Move(tree: Tree, source: Path, target: Path, t: Trouble): Tree {
    if source !in tree || target in tree || source in t.refused || !ParentOk(tree, target.dir) then tree
    else WithParent(tree, target.dir, t.made)[target := tree[source]] - {source}
  }

  function MoveFree(tree: Tree, source: Path, dir: Dir, key: string, t: Trouble): Tree {
    Move(tree, source, FreePath(tree, dir, source.name, key), t)
  }

  /** Where one entry goes: to its own name when that is free, else to the one with the
      thread key, else it stays; it stays too when its move is refused or the directory
      cannot be made. Nothing else moves. */
  lemma MoveFreeMeaning(tree: Tree, source: Path, dir: Dir, key: string, t: Trouble)
    requires source in tree && IsNew(dir) && !IsNew(source.dir)
    ensures var after := MoveFree(tree, source, dir, key, t);
      var own, keyed := Path(dir, source.name), Path(dir, Suffixed(source.name, key));
      var stays := || source in t.refused || (own in tree && keyed in tree)
                   || (dir.NewSent? && Path(NewRoot, OUTBOX) in tree && !tree[Path(NewRoot, OUTBOX)].kind.Directory?);
      && (stays ==> after == tree)
      && (!stays && own !in tree ==> source !in after && own in after && after[own] == tree[source])
      && (!stays && own in tree ==> source !in after && keyed in after && after[keyed] == tree[source])
      && (!stays && dir.NewSent? ==> IsDirectory(after, Path(NewRoot, OUTBOX)))
      && (forall p | p in tree && p != source :: p in after && after[p] == tree[p])
      && (forall p | p in after && p !in tree :: p == own || p == keyed || (dir.NewSent? && p == Path(NewRoot, OUTBOX)))
  {
  }

  function MoveAll(tree: Tree, from: Dir, names: seq<string>, dir: Dir, key: string, t: Trouble): Tree
    decreases |names|
  {
    if |names| == 0 then tree
    else MoveAll(MoveFree(tree, Path(from, names[0]), dir, key, t), from, names[1..], dir, key, t)
  }

  /** The names a run finds in each directory, in the order it visits them. */
  datatype Listing = Listing(root: seq<string>, outbox: seq<string>, sent: seq<string>)

  /** `rmdir`: only an empty directory goes. */
  function RemoveIfEmpty(tree: Tree, p: Path, dir: Dir): Tree { if HasEntries(tree, dir) then tree else tree - {p} }

  function NotSent(names: seq<string>): seq<string> {
    if |names| == 0 then []
    else if names[0] == SENT then NotSent(names[1..])
    else [names[0]] + NotSent(names[1..])
  }

  function MergeSent(tree: Tree, names: seq<string>, key: string, t: Trouble): Tree {
    if !IsDirectory(tree, Path(OldOutbox, SENT)) then tree
    else RemoveIfEmpty(MoveAll(tree, OldSent, names, NewSent, key, t), Path(OldOutbox, SENT), OldSent)
  }

  function MergeOutbox(tree: Tree, l: Listing, key: string, t: Trouble): Tree {
    var sent := MergeSent(tree, l.sent, key, t);
    var moved := MoveAll(sent, OldOutbox, NotSent(l.outbox), NewRoot, key, t);
    RemoveIfEmpty(moved, Path(OldRoot, OUTBOX), OldOutbox)
  }

  /** One entry of the old directory. The legacy store's own files are not moved. */
  function MoveEntry(tree: Tree, name: string, personas: set<string>, l: Listing, key: string, t: Trouble): Tree {
    if IsPersona(tree, name, personas) then tree - {Path(OldRoot, name)}
    else if name == OUTBOX && IsDirectory(tree, Path(OldRoot, OUTBOX)) then MergeOutbox(tree, l, key, t)
    else if name == LEGACY && IsDirectory(tree, Path(OldRoot, LEGACY)) then
      RemoveIfEmpty(tree, Path(OldRoot, LEGACY), LegacyStore)
    else MoveFree(tree, Path(OldRoot, name), NewRoot, key, t)
  }

  function MoveEntries(tree: Tree, names: seq<string>, personas: set<string>, l: Listing, key: string, t: Trouble): Tree
    decreases |names|
  {
    if |names| == 0 then tree
    else MoveEntries(MoveEntry(tree, names[0], personas, l, key, t), names[1..], personas, l, key, t)
  }

  function MoveFiles(tree: Tree, personas: set<string>, l: Listing, key: string, t: Trouble): Tree {
    MoveEntries(tree, l.root, personas, l, key, t)
  }

  // --- conservation ---

  /** No two paths hold the same content, and a made directory's identity is nobody's. */
  ghost predicate Distinct(tree: Tree, made: nat) {
    && (forall p, q | p in tree && q in tree && p != q && !tree[p].kind.Directory? :: tree[p] != tree[q])
    && (forall p | p in tree && tree[p].id == made :: tree[p].kind.Directory?)
  }

  /** Where content is. */
  ghost predicate Holds(tree: Tree, item: Item) { exists p :: p in tree && tree[p] == item }

  predicate IsNew(dir: Dir) { dir.NewRoot? || dir.NewSent? }

  /** Where an entry may end: what was delivered in the archive, all else in the root,
      under its own name or with the thread key. */
  predicate Lands(p: Path, q: Path, key: string) {
    && (if p.dir.OldSent? then q.dir.NewSent? else (p.dir.OldRoot? || p.dir.OldOutbox?) && q.dir.NewRoot?)
    && (q.name == p.name || q.name == Suffixed(p.name, key))
  }

  /** The item at `q` came from a path it may have come from. */
  ghost predicate CameFrom(tree: Tree, q: Path, item: Item, key: string) {
    exists p :: p in tree && tree[p] == item && Lands(p, q, key)
  }

  /** What any part of a migration may do: content other than dropped links keeps exactly
      one path, new paths only gain entries, and an item that changes its path ends where
      it belongs in the new workspace. */
  ghost predicate Safe(tree: Tree, after: Tree, dropped: set<string>, key: string) {
    && (forall p | p in tree && IsNew(p.dir) :: p in after && after[p] == tree[p])
    && (forall p | p in tree && !tree[p].kind.Directory?
                   && !(p.dir.OldRoot? && tree[p].kind.Link? && p.name in dropped) ::
          Holds(after, tree[p]))
    && (forall q | q in after && !after[q].kind.Directory? ::
          || (q in tree && tree[q] == after[q])
          || (q !in tree && CameFrom(tree, q, after[q], key)))
  }

  lemma SafeTrans(a: Tree, b: Tree, c: Tree, dropped: set<string>, key: string, made: nat)
    requires Distinct(a, made) && Distinct(b, made) && Safe(a, b, dropped, key) && Safe(b, c, dropped, key)
    ensures Safe(a, c, dropped, key)
  {
    forall p | p in a && !a[p].kind.Directory? && !(p.dir.OldRoot? && a[p].kind.Link? && p.name in dropped)
      ensures Holds(c, a[p])
    {
      assert Holds(b, a[p]);
      var q :| q in b && b[q] == a[p];
      if q.dir.OldRoot? { assert q in a && a[q] == b[q]; }
    }
    forall q | q in c && !c[q].kind.Directory?
      ensures (q in a && a[q] == c[q]) || (q !in a && CameFrom(a, q, c[q], key))
    {
      if q in b && b[q] == c[q] {
      } else {
        var p :| p in b && b[p] == c[q] && Lands(p, q, key);
      }
    }
  }

  lemma MoveSafe(tree: Tree, source: Path, target: Path, t: Trouble, dropped: set<string>, key: string)
    requires Distinct(tree, t.made) && Lands(source, target, key)
    ensures Safe(tree, Move(tree, source, target, t), dropped, key) && Distinct(Move(tree, source, target, t), t.made)
  {
    var after := Move(tree, source, target, t);
    if after != tree {
      assert after[target] == tree[source];
      forall p | p in tree && !tree[p].kind.Directory? ensures Holds(after, tree[p]) {
        if p == source { assert after[target] == tree[p]; } else { assert after[p] == tree[p]; }
      }
    } else {
      forall p | p in tree ensures Holds(after, tree[p]) {}
    }
  }

  lemma Unchanged(tree: Tree, dropped: set<string>, key: string)
    ensures Safe(tree, tree, dropped, key)
  {
  }

  lemma {:induction false} MoveAllSafe(tree: Tree, from: Dir, names: seq<string>, dir: Dir, key: string,
                                       t: Trouble, dropped: set<string>)
    requires Distinct(tree, t.made) && (if from.OldSent? then dir.NewSent? else from.OldOutbox? && dir.NewRoot?)
    ensures var after := MoveAll(tree, from, names, dir, key, t);
      Safe(tree, after, dropped, key) && Distinct(after, t.made)
    decreases |names|
  {
    if |names| == 0 {
      Unchanged(tree, dropped, key);
    } else {
      var source := Path(from, names[0]);
      var next := MoveFree(tree, source, dir, key, t);
      MoveSafe(tree, source, FreePath(tree, dir, source.name, key), t, dropped, key);
      MoveAllSafe(next, from, names[1..], dir, key, t, dropped);
      SafeTrans(tree, next, MoveAll(next, from, names[1..], dir, key, t), dropped, key, t.made);
    }
  }

  lemma RemoveDirSafe(tree: Tree, p: Path, dir: Dir, made: nat, dropped: set<string>, key: string)
    requires Distinct(tree, made) && (p in tree ==> tree[p].kind.Directory?) && !IsNew(p.dir)
    ensures Safe(tree, RemoveIfEmpty(tree, p, dir), dropped, key) && Distinct(RemoveIfEmpty(tree, p, dir), made)
  {
    var after := RemoveIfEmpty(tree, p, dir);
    forall q | q in tree && !tree[q].kind.Directory? ensures Holds(after, tree[q]) {
      assert after[q] == tree[q];
    }
  }

  lemma DropSafe(tree: Tree, name: string, made: nat, dropped: set<string>, key: string)
    requires Distinct(tree, made) && IsPersona(tree, name, dropped)
    ensures Safe(tree, tree - {Path(OldRoot, name)}, dropped, key) && Distinct(tree - {Path(OldRoot, name)}, made)
  {
    var after := tree - {Path(OldRoot, name)};
    forall q | q in tree && q != Path(OldRoot, name) ensures Holds(after, tree[q]) {
      assert after[q] == tree[q];
    }
  }

  /** The directories themselves stay directories while their entries are moved. */
  lemma {:induction false} MoveAllKeeps(tree: Tree, from: Dir, names: seq<string>, dir: Dir, key: string,
                                        t: Trouble, p: Path)
    requires p.dir != from && !IsNew(p.dir) && IsNew(dir)
    ensures var after := MoveAll(tree, from, names, dir, key, t);
      (p in after <==> p in tree) && (p in tree ==> after[p] == tree[p])
    decreases |names|
  {
    if |names| != 0 {
      MoveAllKeeps(MoveFree(tree, Path(from, names[0]), dir, key, t), from, names[1..], dir, key, t, p);
    }
  }

  lemma MergeSentSafe(tree: Tree, names: seq<string>, key: string, t: Trouble, dropped: set<string>)
    requires Distinct(tree, t.made)
    ensures Safe(tree, MergeSent(tree, names, key, t), dropped, key) && Distinct(MergeSent(tree, names, key, t), t.made)
  {
    if IsDirectory(tree, Path(OldOutbox, SENT)) {
      var moved := MoveAll(tree, OldSent, names, NewSent, key, t);
      MoveAllSafe(tree, OldSent, names, NewSent, key, t, dropped);
      MoveAllKeeps(tree, OldSent, names, NewSent, key, t, Path(OldOutbox, SENT));
      RemoveDirSafe(moved, Path(OldOutbox, SENT), OldSent, t.made, dropped, key);
      SafeTrans(tree, moved, MergeSent(tree, names, key, t), dropped, key, t.made);
    } else {
      Unchanged(tree, dropped, key);
    }
  }

  lemma MergeSentKeeps(tree: Tree, names: seq<string>, key: string, t: Trouble, p: Path)
    requires p.dir.OldRoot?
    ensures var after := MergeSent(tree, names, key, t);
      (p in after <==> p in tree) && (p in tree ==> after[p] == tree[p])
  {
    MoveAllKeeps(tree, OldSent, names, NewSent, key, t, p);
  }

  lemma MergeOutboxSafe(tree: Tree, l: Listing, key: string, t: Trouble, dropped: set<string>)
    requires Distinct(tree, t.made) && IsDirectory(tree, Path(OldRoot, OUTBOX))
    ensures Safe(tree, MergeOutbox(tree, l, key, t), dropped, key) && Distinct(MergeOutbox(tree, l, key, t), t.made)
  {
    var p := Path(OldRoot, OUTBOX);
    var sent := MergeSent(tree, l.sent, key, t);
    var moved := MoveAll(sent, OldOutbox, NotSent(l.outbox), NewRoot, key, t);
    MergeSentSafe(tree, l.sent, key, t, dropped);
    MergeSentKeeps(tree, l.sent, key, t, p);
    MoveAllSafe(sent, OldOutbox, NotSent(l.outbox), NewRoot, key, t, dropped);
    MoveAllKeeps(sent, OldOutbox, NotSent(l.outbox), NewRoot, key, t, p);
    SafeTrans(tree, sent, moved, dropped, key, t.made);
    RemoveDirSafe(moved, p, OldOutbox, t.made, dropped, key);
    SafeTrans(tree, moved, MergeOutbox(tree, l, key, t), dropped, key, t.made);
  }

  lemma MoveEntrySafe(tree: Tree, name: string, personas: set<string>, l: Listing, key: string, t: Trouble)
    requires Distinct(tree, t.made)
    ensures var after := MoveEntry(tree, name, personas, l, key, t);
      Safe(tree, after, personas, key) && Distinct(after, t.made)
  {
    if IsPersona(tree, name, personas) {
      DropSafe(tree, name, t.made, personas, key);
    } else if name == OUTBOX && IsDirectory(tree, Path(OldRoot, OUTBOX)) {
      MergeOutboxSafe(tree, l, key, t, personas);
    } else if name == LEGACY && IsDirectory(tree, Path(OldRoot, LEGACY)) {
      RemoveDirSafe(tree, Path(OldRoot, LEGACY), LegacyStore, t.made, personas, key);
    } else {
      MoveSafe(tree, Path(OldRoot, name), FreePath(tree, NewRoot, name, key), t, personas, key);
    }
  }

  lemma {:induction false} MoveEntriesSafe(tree: Tree, names: seq<string>, personas: set<string>, l: Listing,
                                           key: string, t: Trouble)
    requires Distinct(tree, t.made)
    ensures var after := MoveEntries(tree, names, personas, l, key, t);
      Safe(tree, after, personas, key) && Distinct(after, t.made)
    decreases |names|
  {
    if |names| == 0 {
      Unchanged(tree, personas, key);
    } else {
      var next := MoveEntry(tree, names[0], personas, l, key, t);
      MoveEntrySafe(tree, names[0], personas, l, key, t);
      MoveEntriesSafe(next, names[1..], personas, l, key, t);
      SafeTrans(tree, next, MoveEntries(next, names[1..], personas, l, key, t), personas, key, t.made);
    }
  }

  /** Whatever is listed in whatever order, and whichever moves the operating system
      refuses: every content entry but the dropped persona links ends at exactly one
      path, its old one or one in the new workspace; and nothing that was in the new
      workspace is overwritten or removed. */
  lemma ContentIsConserved(tree: Tree, personas: set<string>, l: Listing, key: string, t: Trouble)
    requires Distinct(tree, t.made)
    ensures var after := MoveFiles(tree, personas, l, key, t);
      && (forall p | p in tree && !tree[p].kind.Directory?
                     && !(p.dir.OldRoot? && tree[p].kind.Link? && p.name in personas) ::
            Holds(after, tree[p]))
      && (forall p, q | p in after && q in after && p != q && !after[p].kind.Directory? :: after[p] != after[q])
      && (forall q | q in after && !after[q].kind.Directory? ::
            (q in tree && tree[q] == after[q]) || (q !in tree && CameFrom(tree, q, after[q], key)))
      && (forall p | p in tree && IsNew(p.dir) :: p in after && after[p] == tree[p])
  {
    MoveEntriesSafe(tree, l.root, personas, l, key, t);
  }
}
