/** Carrying one thread's codex session to a new workspace, step by step. */
module MigrationSessions {
  import opened Options

  type Session = nat
  type Thread = nat
  type Content = nat

  /** Where a rollout is below a home; its name ends in its thread. */
  datatype Path = Path(thread: Thread, place: nat)

  datatype Workspace = Old | New

  /** The durable mapping from workspace and session to thread, the rollouts each
      workspace's home holds, and the old in-workspace store. `shared` says that both
      workspaces use one home, whose rollouts are then `oldHome`. A stored text is None
      when it is empty. */
  datatype Disk = Disk(
    mapping: map<(Workspace, Session), Thread>,
    shared: bool,
    oldHome: map<Path, Content>,
    newHome: map<Path, Content>,
    legacy: map<Session, Option<Thread>>)

  function ThreadOf(d: Disk, w: Workspace, s: Session): Option<Thread> {
    if (w, s) in d.mapping then Some(d.mapping[(w, s)]) else None
  }

  function Home(d: Disk, w: Workspace): map<Path, Content> { if d.shared || w.Old? then d.oldHome else d.newHome }

  /** The home holds a rollout of the thread. */
  ghost predicate Holds(home: map<Path, Content>, t: Thread) { exists p :: p in home && p.thread == t }

  /** The session is on record under a workspace. */
  predicate Readable(d: Disk, s: Session, t: Thread) {
    ThreadOf(d, Old, s) == Some(t) || ThreadOf(d, New, s) == Some(t)
  }

  /** It can be resumed: the home of a workspace that records it has a rollout of it. */
  ghost predicate Resumable(d: Disk, s: Session, t: Thread) {
    || (ThreadOf(d, Old, s) == Some(t) && Holds(Home(d, Old), t))
    || (ThreadOf(d, New, s) == Some(t) && Holds(Home(d, New), t))
  }

  // --- the three writes of `_move_codex_session` ---

  /** A move is refused when its target exists, or when the system refuses it. */
  predicate Leaves(d: Disk, t: Thread, refused: set<Path>, p: Path) {
    p in d.oldHome && p.thread == t && p !in d.newHome && p !in refused
  }

  function Leaving(d: Disk, t: Thread, refused: set<Path>): set<Path> {
    set p | p in d.oldHome && Leaves(d, t, refused, p)
  }

  /** One rollout goes to the same place below the new home. */
  function MoveOne(d: Disk, p: Path): Disk
    requires p in d.oldHome
  {
    d.(oldHome := d.oldHome - {p}, newHome := d.newHome[p := d.oldHome[p]])
  }

  function Kept(home: map<Path, Content>, paths: set<Path>): map<Path, Content> {
    map p | p in home && p in paths :: home[p]
  }

  /** These rollouts are moved. */
  function Carried(d: Disk, moved: set<Path>): Disk {
    d.(oldHome := d.oldHome - moved, newHome := d.newHome + Kept(d.oldHome, moved))
  }

  /** Every rollout of the thread that can move does. */
  function MoveRollout(d: Disk, t: Thread, refused: set<Path>): Disk {
    if d.shared then d else Carried(d, Leaving(d, t, refused))
  }

  function WriteThread(d: Disk, s: Session, t: Thread): Disk { d.(mapping := d.mapping[(New, s) := t]) }

  function ClearThread(d: Disk, s: Session): Disk { d.(mapping := d.mapping - {(Old, s)}) }

  /** The disk before, between and after the writes. */
  function Points(d: Disk, s: Session, refused: set<Path>): (points: seq<Disk>)
    ensures |points| > 0
  {
    match ThreadOf(d, Old, s)
    case None => [d]
    case Some(t) =>
      var d1 := MoveRollout(d, t, refused);
      var d2 := WriteThread(d1, s, t);
      [d, d1, d2, ClearThread(d2, s)]
  }

  function MoveSession(d: Disk, s: Session, refused: set<Path>): Disk {
    var p := Points(d, s, refused); p[|p| - 1]
  }

  /** At every intermediate point the session is readable under the old or the new
      workspace, and whatever is read is its thread, unless the new workspace recorded
      another one to begin with. */
  lemma ReadableThroughout(d: Disk, s: Session, refused: set<Path>, t: Thread, k: nat)
    requires ThreadOf(d, Old, s) == Some(t) && k < |Points(d, s, refused)|
    ensures var p := Points(d, s, refused)[k];
      && Readable(p, s, t)
      && (ThreadOf(p, Old, s).None? || ThreadOf(p, Old, s) == Some(t))
      && (ThreadOf(d, New, s).None? ==> ThreadOf(p, New, s).None? || ThreadOf(p, New, s) == Some(t))
      && (forall other, w | other != s :: ThreadOf(p, w, other) == ThreadOf(d, w, other))
    ensures ThreadOf(MoveSession(d, s, refused), New, s) == Some(t)
    ensures ThreadOf(MoveSession(d, s, refused), Old, s) == None
  {
  }

  /** A rollout of the thread stays in the old home: its place is taken, or the system
      refuses the move. */
  ghost predicate Stays(d: Disk, t: Thread, refused: set<Path>) {
    exists p :: p in d.oldHome && p.thread == t && (p in d.newHome || p in refused)
  }

  /** A rollout of the thread is in the new home, or can get there. */
  ghost predicate Arrives(d: Disk, t: Thread, refused: set<Path>) {
    Holds(d.newHome, t) || exists p :: p in d.oldHome && p.thread == t && p !in refused
  }

  lemma MovedHomes(d: Disk, t: Thread, refused: set<Path>)
    requires !d.shared && Holds(d.oldHome, t)
    ensures var d1 := MoveRollout(d, t, refused);
      && (Holds(d1.oldHome, t) <==> Stays(d, t, refused))
      && (Holds(d1.newHome, t) <==> Arrives(d, t, refused))
      && (Holds(d1.oldHome, t) || Holds(d1.newHome, t))
  {
    var d1 := MoveRollout(d, t, refused);
    assert forall p | p in d1.oldHome && p.thread == t :: p in d.oldHome && (p in d.newHome || p in refused);
    assert forall p | p in d.oldHome && p.thread == t && (p in d.newHome || p in refused) :: p in d1.oldHome;
    forall p | p in d.oldHome && p.thread == t && p !in refused ensures p in d1.newHome {
      assert p in d.newHome || p in Leaving(d, t, refused);
    }
    assert forall p | p in d1.newHome && p.thread == t :: p in d.newHome || (p in d.oldHome && p !in refused);
  }

  /** Readable is not resumable. Between moving the rollouts and writing the mapping the
      session can be resumed if and only if a rollout stayed, or the new workspace
      recorded this thread already. At the end it can if and only if a rollout got to the
      new home: the mapping goes whether or not the rollouts did. */
  lemma ResumableGap(d: Disk, s: Session, refused: set<Path>, t: Thread)
    requires ThreadOf(d, Old, s) == Some(t) && Holds(Home(d, Old), t)
    ensures var p := Points(d, s, refused);
      && |p| == 4
      && Resumable(p[0], s, t) && Resumable(p[2], s, t)
      && (Resumable(p[1], s, t) <==> d.shared || Stays(d, t, refused) || ThreadOf(d, New, s) == Some(t))
      && (Resumable(p[3], s, t) <==> d.shared || Arrives(d, t, refused))
  {
    if !d.shared { MovedHomes(d, t, refused); }
  }

  /** A mapping the new workspace already has is kept if and only if the old one has
      none for the session, or the same: unlike a file, it is overwritten. */
  lemma MappingKept(d: Disk, s: Session, refused: set<Path>, mine: Thread)
    requires ThreadOf(d, New, s) == Some(mine)
    ensures ThreadOf(MoveSession(d, s, refused), New, s) == Some(mine)
      <==> ThreadOf(d, Old, s).None? || ThreadOf(d, Old, s) == Some(mine)
  {
  }

  lemma MoveTwice(d: Disk, t: Thread, refused: set<Path>)
    ensures var d1 := MoveRollout(d, t, refused); MoveRollout(d1, t, refused) == d1
  {
    var d1 := MoveRollout(d, t, refused);
    if !d.shared {
      assert Leaving(d1, t, refused) == {};
      CarriedNothing(d1);
    }
  }

  lemma CarriedNothing(d: Disk)
    ensures Carried(d, {}) == d
  {
    assert d.oldHome - {} == d.oldHome && d.newHome + Kept(d.oldHome, {}) == d.newHome;
  }

  /** A crash at any point loses nothing: running again from there, with the same moves
      refused, ends where the uninterrupted run ends, and a second run changes nothing. */
  lemma RestartConverges(d: Disk, s: Session, refused: set<Path>, k: nat)
    requires k < |Points(d, s, refused)|
    ensures MoveSession(Points(d, s, refused)[k], s, refused) == MoveSession(d, s, refused)
  {
    if ThreadOf(d, Old, s).Some? {
      var t := d.mapping[(Old, s)];
      var d1 := MoveRollout(d, t, refused);
      var d2 := WriteThread(d1, s, t);
      MoveTwice(d, t, refused);
      assert MoveRollout(d2, t, refused) == d2 by { assert MoveRollout(d1, t, refused) == d1; }
      assert WriteThread(d2, s, t) == d2 by { assert d2.mapping[(New, s) := t] == d2.mapping; }
    }
  }

  /** Rollouts carried in two goes are carried in one. */
  lemma CarriedInTwo(d: Disk, some: set<Path>, all: set<Path>)
    requires some <= all <= d.oldHome.Keys
    ensures Carried(Carried(d, some), all - some) == Carried(d, all)
  {
    assert some + (all - some) == all;
    var d1, d2 := Carried(d, some), Carried(d, all);
    assert Carried(d1, all - some).oldHome == d2.oldHome;
    assert Carried(d1, all - some).newHome == d2.newHome;
  }

  lemma LeavesLater(d: Disk, t: Thread, refused: set<Path>, some: set<Path>)
    requires some <= Leaving(d, t, refused)
    ensures Leaving(Carried(d, some), t, refused) == Leaving(d, t, refused) - some
  {
  }

  /** A crash among the rollouts, some of them moved, is made good by running again too. */
  lemma RestartAmongRollouts(d: Disk, s: Session, refused: set<Path>, t: Thread, some: set<Path>)
    requires !d.shared && ThreadOf(d, Old, s) == Some(t) && some <= Leaving(d, t, refused)
    ensures MoveSession(Carried(d, some), s, refused) == MoveSession(d, s, refused)
  {
    LeavesLater(d, t, refused, some);
    CarriedInTwo(d, some, Leaving(d, t, refused));
  }

  /** Each rollout ends in exactly one place. One of the new home stays as it is, under
      its path. One of the old home moves to the same path below the new home, and one
      whose path is taken there, or whose move is refused, stays in the old home. */
  lemma RolloutsAreConserved(d: Disk, s: Session, refused: set<Path>)
    ensures var after := MoveSession(d, s, refused);
      && (forall p | p in d.newHome :: p in after.newHome && after.newHome[p] == d.newHome[p])
      && (forall p | p in d.oldHome ::
            if !d.shared && ThreadOf(d, Old, s) == Some(p.thread) && p !in d.newHome && p !in refused then
              p !in after.oldHome && p in after.newHome && after.newHome[p] == d.oldHome[p]
            else
              p in after.oldHome && after.oldHome[p] == d.oldHome[p] && (p in after.newHome ==> p in d.newHome))
      && |after.oldHome| + |after.newHome| == |d.oldHome| + |d.newHome|
  {
    if ThreadOf(d, Old, s).Some? { MoveKeepsCount(d, d.mapping[(Old, s)], refused); }
  }

  lemma MoveKeepsCount(d: Disk, t: Thread, refused: set<Path>)
    ensures var d1 := MoveRollout(d, t, refused);
      |d1.oldHome| + |d1.newHome| == |d.oldHome| + |d.newHome|
  {
    if !d.shared {
      var moved := Leaving(d, t, refused);
      SizeWithout(d.oldHome, moved);
      SizeWith(d.newHome, Kept(d.oldHome, moved), moved);
    }
  }

  lemma SizeWithout(home: map<Path, Content>, moved: set<Path>)
    requires moved <= home.Keys
    ensures |home - moved| == |home| - |moved|
  {
    assert (home - moved).Keys == home.Keys - moved;
    assert |home.Keys - moved| == |home.Keys| - |moved|;
  }

  lemma SizeWith(home: map<Path, Content>, more: map<Path, Content>, moved: set<Path>)
    requires more.Keys == moved && moved !! home.Keys
    ensures |home + more| == |home| + |moved|
  {
    assert (home + more).Keys == home.Keys + moved;
  }

  // --- the old in-workspace store ---

  /** What becomes of one file of the store. `valid` is whether codex would accept its
      thread id. */
  function AdoptOne(d: Disk, s: Session, valid: Thread -> bool, refused: set<Path>): Disk
    requires s in d.legacy
  {
    match d.legacy[s]
    case None => d.(legacy := d.legacy - {s})
    case Some(t) =>
      if (New, s) in d.mapping then d.(legacy := d.legacy - {s})
      else if !valid(t) then d
      else MoveRollout(WriteThread(d, s, t), t, refused).(legacy := d.legacy - {s})
  }

  function AdoptAll(d: Disk, order: seq<Session>, valid: Thread -> bool, refused: set<Path>): Disk
    decreases |order|
  {
    if |order| == 0 then d
    else AdoptAll(if order[0] in d.legacy then AdoptOne(d, order[0], valid, refused) else d, order[1..], valid, refused)
  }

  /** The mapping after adopting a store: the new workspace's own mappings win, every
      other stored thread codex accepts is adopted; only refused ids stay behind. */
  lemma {:induction false} AdoptionMeaning(d: Disk, order: seq<Session>, valid: Thread -> bool, refused: set<Path>,
                                           s: Session)
    ensures var after := AdoptAll(d, order, valid, refused);
      && (forall x :: ThreadOf(after, Old, x) == ThreadOf(d, Old, x))
      && ThreadOf(after, New, s) ==
           (if ThreadOf(d, New, s).Some? then ThreadOf(d, New, s)
            else if s in order && s in d.legacy && d.legacy[s].Some? && valid(d.legacy[s].value) then d.legacy[s]
            else None)
      && (s in after.legacy <==>
            && s in d.legacy
            && (s in order ==> d.legacy[s].Some? && ThreadOf(d, New, s).None? && !valid(d.legacy[s].value)))
      && (s in after.legacy ==> after.legacy[s] == d.legacy[s])
    decreases |order|
  {
    if |order| != 0 {
      var next := if order[0] in d.legacy then AdoptOne(d, order[0], valid, refused) else d;
      assert s in order <==> s == order[0] || s in order[1..];
      AdoptionMeaning(next, order[1..], valid, refused, s);
    }
  }

  /** Adopting a store twice is adopting it once. */
  lemma AdoptionRepeats(d: Disk, order: seq<Session>, valid: Thread -> bool, refused: set<Path>)
    ensures var after := AdoptAll(d, order, valid, refused); AdoptAll(after, order, valid, refused) == after
  {
    var after := AdoptAll(d, order, valid, refused);
    forall s | s in order && s in after.legacy ensures AdoptOne(after, s, valid, refused) == after {
      AdoptionMeaning(d, order, valid, refused, s);
    }
    NothingToAdopt(after, order, valid, refused);
  }

  lemma {:induction false} NothingToAdopt(d: Disk, order: seq<Session>, valid: Thread -> bool, refused: set<Path>)
    requires forall s | s in order && s in d.legacy :: AdoptOne(d, s, valid, refused) == d
    ensures AdoptAll(d, order, valid, refused) == d
    decreases |order|
  {
    if |order| != 0 { NothingToAdopt(d, order[1..], valid, refused); }
  }

  /** The disk while one accepted file of the store is adopted, some rollouts moved: the
      mapping is written first, the file goes last. */
  function Adopting(d: Disk, s: Session, t: Thread, some: set<Path>): Disk { Carried(WriteThread(d, s, t), some) }

  /** A crash during an adoption is not always made good. Running again finds the mapping,
      takes the file for done, and moves nothing: it ends where the uninterrupted adoption
      ends if and only if the homes are shared, or every rollout that could move had
      moved before the crash. */
  lemma AdoptionRestart(d: Disk, s: Session, valid: Thread -> bool, refused: set<Path>, t: Thread, some: set<Path>)
    requires s in d.legacy && d.legacy[s] == Some(t) && (New, s) !in d.mapping && valid(t)
    requires if d.shared then some == {} else some <= Leaving(d, t, refused)
    ensures AdoptOne(Adopting(d, s, t, some), s, valid, refused) == AdoptOne(d, s, valid, refused)
      <==> d.shared || some == Leaving(d, t, refused)
    ensures (New, s) in Adopting(d, s, t, some).mapping && Adopting(d, s, t, some).legacy == d.legacy
  {
    var all := Leaving(d, t, refused);
    var w := WriteThread(d, s, t);
    CarriedNothing(w);
    assert Leaving(w, t, refused) == all;
    if !d.shared && some != all {
      var p :| p in all && p !in some;
      assert p in Carried(w, some).oldHome && p !in Carried(w, all).oldHome;
    }
  }

  /** Crashing before the first write, or after the file is gone, does no harm. */
  lemma AdoptionEnds(d: Disk, s: Session, valid: Thread -> bool, refused: set<Path>)
    requires s in d.legacy
    ensures var after := AdoptOne(d, s, valid, refused);
      s in after.legacy ==> after == d
  {
  }

  /** A stored thread is adopted, or was mapped by the new workspace already. */
  predicate Adopts(d: Disk, s: Session, valid: Thread -> bool) {
    s in d.legacy && d.legacy[s].Some? && ((New, s) in d.mapping || valid(d.legacy[s].value))
  }

  lemma AdoptedAlready(d: Disk, order: seq<Session>, i: nat, valid: Thread -> bool, refused: set<Path>)
    requires i < |order|
    ensures var now := AdoptAll(d, order[..i], valid, refused);
      && AdoptAll(d, order[..i + 1], valid, refused)
         == (if order[i] in now.legacy then AdoptOne(now, order[i], valid, refused) else now)
      && (order[i] !in order[..i] ==> Adopts(now, order[i], valid) == Adopts(d, order[i], valid))
      && (order[i] in order[..i] ==> !Adopts(now, order[i], valid))
  {
    AdoptSnoc(d, order[..i], order[i], valid, refused);
    assert order[..i + 1] == order[..i] + [order[i]];
    AdoptionMeaning(d, order[..i], valid, refused, order[i]);
  }

  lemma {:induction false} AdoptSnoc(d: Disk, order: seq<Session>, s: Session, valid: Thread -> bool,
                                     refused: set<Path>)
    ensures var now := AdoptAll(d, order, valid, refused);
      AdoptAll(d, order + [s], valid, refused)
      == if s in now.legacy then AdoptOne(now, s, valid, refused) else now
    decreases |order|
  {
    if |order| == 0 {
      assert order + [s] == [s] && [s][1..] == [];
    } else {
      assert (order + [s])[1..] == order[1..] + [s];
      var next := if order[0] in d.legacy then AdoptOne(d, order[0], valid, refused) else d;
      AdoptSnoc(next, order[1..], s, valid, refused);
    }
  }

  class SessionStore {
    var disk: Disk

    constructor (disk: Disk)
      ensures this.disk == disk
    {
      this.disk := disk;
    }

    /** `_move_rollout`: one rollout of the thread after the other. */
    method MoveRollouts(t: Thread, refused: set<Path>)
      modifies `disk
      ensures disk == MoveRollout(old(disk), t, refused)
    {
      if disk.shared { return; }
      ghost var was, all := disk, Leaving(disk, t, refused);
      var found := set p | p in disk.oldHome && p.thread == t;
      assert all - found == {};
      CarriedNothing(was);
      while found != {}
        invariant found <= was.oldHome.Keys && forall p | p in found :: p.thread == t
        invariant disk == Carried(was, all - found)
        decreases |found|
      {
        var p :| p in found;
        CarriesOneMore(was, t, refused, found, p);
        found := found - {p};
        if p !in disk.newHome && p !in refused { disk := MoveOne(disk, p); }
      }
      assert all - found == all;
    }

    method MoveCodexSession(s: Session, refused: set<Path>) returns (moved: bool, ghost points: seq<Disk>)
      modifies `disk
      ensures disk == MoveSession(old(disk), s, refused) && points == Points(old(disk), s, refused)
      ensures moved <==> ThreadOf(old(disk), Old, s).Some?
    {
      points := [disk];
      var thread := ThreadOf(disk, Old, s);
      if thread.None? { return false, points; }
      MoveRollouts(thread.value, refused);
      points := points + [disk];
      disk := WriteThread(disk, s, thread.value);
      points := points + [disk];
      disk := ClearThread(disk, s);
      points := points + [disk];
      return true, points;
    }

    method AdoptLegacyCodex(order: seq<Session>, valid: Thread -> bool, refused: set<Path>) returns (adopted: bool)
      modifies `disk
      ensures disk == AdoptAll(old(disk), order, valid, refused)
      ensures adopted <==>
        exists s :: && s in order && s in old(disk).legacy && old(disk).legacy[s].Some?
                    && ((New, s) in old(disk).mapping || valid(old(disk).legacy[s].value))
    {
      adopted := false;
      ghost var was := disk;
      for i := 0 to |order|
        invariant disk == AdoptAll(was, order[..i], valid, refused)
        invariant adopted <==> exists s :: s in order[..i] && Adopts(was, s, valid)
      {
        var s := order[i];
        AdoptedAlready(was, order, i, valid, refused);
        assert order[..i + 1] == order[..i] + [s];
        var counts := AdoptFile(s, valid, refused);
        adopted := counts || adopted;
      }
      assert order[..|order|] == order;
    }

    /** One file of the store. */
    method AdoptFile(s: Session, valid: Thread -> bool, refused: set<Path>) returns (adopted: bool)
      modifies `disk
      ensures disk == if s in old(disk).legacy then AdoptOne(old(disk), s, valid, refused) else old(disk)
      ensures adopted == Adopts(old(disk), s, valid)
    {
      if s !in disk.legacy { return false; }
      ghost var was := disk;
      var thread := disk.legacy[s];
      if thread.None? {
        disk := disk.(legacy := disk.legacy - {s});
        return false;
      }
      if (New, s) !in disk.mapping {
        if !valid(thread.value) { return false; }
        disk := WriteThread(disk, s, thread.value);
        MoveRollouts(thread.value, refused);
      }
      disk := disk.(legacy := disk.legacy - {s});
      return true;
    }
  }

  /** One rollout further in the loop of moves. */
  lemma CarriesOneMore(was: Disk, t: Thread, refused: set<Path>, found: set<Path>, p: Path)
    requires p in found && p in was.oldHome && p.thread == t
    ensures var all := Leaving(was, t, refused);
      var d := Carried(was, all - found);
      && p in d.oldHome
      && (p !in d.newHome && p !in refused <==> p in all)
      && Carried(was, all - (found - {p})) == if p in all then MoveOne(d, p) else d
  {
    var all := Leaving(was, t, refused);
    if p in all { assert all - (found - {p}) == (all - found) + {p}; }
    else { assert all - (found - {p}) == all - found; }
  }
}
