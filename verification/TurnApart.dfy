/** Automatic compactions of one chat: what lies between two of them, in every run, and
    exactly when one follows another with no reading between. */
module TurnApart {
  import opened Numbers
  import opened Options
  import opened TurnEngine
  import opened TurnRuns
  import opened TurnCompaction

  // --- the history of one chat ---

  /** What the notes say of a chat. Clear: no automatic compaction since the last
      reading. Queued: one was queued. Spent: and a turn was dispatched since. */
  datatype Debt = Clear | Queued | Spent

  function DebtAfter(debt: Debt, n: Note, c: Chat): Debt {
    if n == AutoQueued(c) then if debt == Spent then Spent else Queued
    else if n == ReadingTaken(c) then Clear
    else if n == Dispatched(c) && debt == Queued then Spent
    else debt
  }

  function DebtOf(notes: seq<Note>, c: Chat): Debt {
    if |notes| == 0 then Clear else DebtAfter(DebtOf(notes[..|notes| - 1], c), notes[|notes| - 1], c)
  }

  lemma DebtMore(notes: seq<Note>, n: Note, c: Chat)
    ensures DebtOf(notes + [n], c) == DebtAfter(DebtOf(notes, c), n, c)
  {
    assert (notes + [n])[..|notes|] == notes;
  }

  /** No reading of this chat in a stretch of the notes. */
  predicate NoReading(notes: seq<Note>, c: Chat, from: nat, to: nat) {
    forall k | from <= k < to && k < |notes| :: notes[k] != ReadingTaken(c)
  }

  /** After a queued compaction the debt stays until a reading; a dispatch spends it. */
  lemma {:induction false} DebtStays(notes: seq<Note>, c: Chat, i: nat)
    requires i < |notes| && notes[i] == AutoQueued(c) && NoReading(notes, c, i, |notes|)
    ensures DebtOf(notes, c) != Clear
    ensures (exists k :: i < k < |notes| && notes[k] == Dispatched(c)) ==> DebtOf(notes, c) == Spent
  {
    if i < |notes| - 1 { DebtStays(notes[..|notes| - 1], c, i); }
  }

  /** And a debt has a compaction behind it. */
  lemma {:induction false} DebtHasACause(notes: seq<Note>, c: Chat) returns (i: nat)
    requires DebtOf(notes, c) != Clear
    ensures i < |notes| && notes[i] == AutoQueued(c) && NoReading(notes, c, i, |notes|)
  {
    if notes[|notes| - 1] == AutoQueued(c) { return |notes| - 1; }
    i := DebtHasACause(notes[..|notes| - 1], c);
  }

  /** No compaction is queued once the debt is spent. */
  ghost predicate NeverSpent(notes: seq<Note>, c: Chat) {
    forall j | 0 <= j < |notes| && notes[j] == AutoQueued(c) :: DebtOf(notes[..j], c) != Spent
  }

  lemma NeverSpentMore(notes: seq<Note>, n: Note, c: Chat)
    requires NeverSpent(notes, c) && (n == AutoQueued(c) ==> DebtOf(notes, c) != Spent)
    ensures NeverSpent(notes + [n], c)
  {
    var more := notes + [n];
    forall j | 0 <= j < |more| && more[j] == AutoQueued(c) ensures DebtOf(more[..j], c) != Spent {
      assert more[..j] == notes[..j];
      if j == |notes| { assert notes[..j] == notes; }
    }
  }

  // --- what every event keeps, aborts and shutdowns included ---

  /** A compaction queued takes the size reading with it, a dispatch the idle reading. */
  predicate ReadingsGone(m: Memory, debt: Debt, c: Chat) {
    (debt != Clear ==> c !in m.context) && (debt == Spent ==> c !in m.idle)
  }

  ghost predicate ApartOk(m: Memory, notes: seq<Note>, c: Chat) {
    NeverSpent(notes, c) && ReadingsGone(m, DebtOf(notes, c), c)
  }

  lemma ApartFrame(m: Memory, m': Memory, notes: seq<Note>, c: Chat)
    requires ApartOk(m, notes, c)
    requires (c in m'.context ==> c in m.context) && (c in m'.idle ==> c in m.idle)
    ensures ApartOk(m', notes, c)
  {
  }

  lemma ApartNote(m: Memory, m': Memory, notes: seq<Note>, n: Note, c: Chat)
    requires NeverSpent(notes, c) && ReadingsGone(m, DebtOf(notes, c), c)
    requires n == AutoQueued(c) ==> DebtOf(notes, c) != Spent && c !in m'.context
    requires n == Dispatched(c) ==> c !in m'.idle && (c in m'.context ==> c in m.context)
    requires n != AutoQueued(c) && n != Dispatched(c) && n != ReadingTaken(c) ==>
      (c in m'.context ==> c in m.context) && (c in m'.idle ==> c in m.idle)
    ensures ApartOk(m', notes + [n], c)
  {
    NeverSpentMore(notes, n, c);
    DebtMore(notes, n, c);
  }

  lemma ApartSilence(w: World, order: seq<Chat>, c: Chat)
    requires ApartOk(w.mem, w.notes, c)
    requires (forall i, j | 0 <= i < j < |order| :: order[i] != order[j]) && (c in order ==> c in w.mem.idle)
    ensures ApartOk(SilenceAll(w, order).mem, SilenceAll(w, order).notes, c)
    decreases |order|
  {
    if |order| != 0 && |w.mem.background| < IDLE_COMPACT_MAX_RUNNING {
      ApartNote(w.mem, Silence(w, order[0]).mem, w.notes, AutoQueued(order[0]), c);
      ApartSilence(Silence(w, order[0]), order[1..], c);
    }
  }

  lemma ApartTick(w: World, now: int, threshold: nat, lead: int, order: seq<Chat>, c: Chat)
    requires ApartOk(w.mem, w.notes, c) && DueOrder(w.mem, now, threshold, lead, order)
    ensures var w' := SilenceAll(w.(mem := Refreshed(w.mem, now)), order); ApartOk(w'.mem, w'.notes, c)
  {
    OrderIsDistinct(w.mem, now, threshold, lead, order);
    if c in order { assert DueForSilence(w.mem, c, now, threshold, lead); }
    ApartFrame(w.mem, Refreshed(w.mem, now), w.notes, c);
    ApartSilence(w.(mem := Refreshed(w.mem, now)), order, c);
  }

  lemma ApartArrive(w: World, b: Chat, due: bool, c: Chat)
    requires ApartOk(w.mem, w.notes, c) && (due ==> b in w.mem.context)
    ensures ApartOk(ArriveStep(w, b, due).mem, ArriveStep(w, b, due).notes, c)
  {
    if due { ApartNote(w.mem, ArriveStep(w, b, due).mem, w.notes, AutoQueued(b), c); }
  }

  lemma ApartMove(m: Memory, notes: seq<Note>, d: Task, journaled: bool, step: Step, c: Chat)
    requires ApartOk(m, notes, c) && CanMove(m, d, step)
    ensures ApartOk(MoveMemory(m, d, journaled, step), Noted(notes, m.tasks[d].chat, m.tasks[d].phase, step), c)
  {
    var b, p, m' := m.tasks[d].chat, m.tasks[d].phase, MoveMemory(m, d, journaled, step);
    if step.Dispatch? { ApartNote(m, m', notes, Dispatched(b), c); }
    else if Reads(p, step) { ApartNote(m, m', notes, ReadingTaken(b), c); }
    else { ApartFrame(m, m', notes, c); }
  }

  lemma ApartQueues(w: World, ev: Event, c: Chat)
    requires ApartOk(w.mem, w.notes, c) && Enabled(w, ev) && Queues(ev)
    ensures ApartOk(Next(w, ev).mem, Next(w, ev).notes, c)
  {
    match ev
    case Arrive(b, threshold) => ApartArrive(w, b, OverThreshold(w.mem.context, b, threshold), c);
    case Accept(i, id) => ApartFrame(w.mem, AcceptStep(w, i, id).mem, w.notes, c);
    case Compact(b) => ApartFrame(w.mem, Enqueued(w, b, COMPACTION).mem, w.notes, c);
    case Tick(now, threshold, lead, order) => ApartTick(w, now, threshold, lead, order, c);
    case Replay(b) => ApartFrame(w.mem, ReplayStep(w, b).mem, w.notes, c);
  }

  lemma ApartRest(w: World, ev: Event, c: Chat)
    requires ApartOk(w.mem, w.notes, c) && Enabled(w, ev) && !Queues(ev)
    ensures ApartOk(Next(w, ev).mem, Next(w, ev).notes, c)
  {
    match ev
    case Take(d) => ApartFrame(w.mem, TakeStep(w, d).mem, w.notes, c);
    case Move(d, step) => ApartMove(w.mem, w.notes, d, Journaled(w, w.mem.tasks[d].phase), step, c);
    case End(d, released) => ApartFrame(w.mem, EndStep(w, d, released).mem, w.notes, c);
    case Abort(b) => ApartFrame(w.mem, AbortStep(w, b).mem, w.notes, c);
    case Shutdown => ApartFrame(w.mem, ShutdownStep(w).mem, w.notes, c);
    case SessionChanges(_) => ApartFrame(w.mem, Next(w, ev).mem, w.notes, c);
    case Crash => ApartFrame(w.mem, NOTHING, w.notes, c);
    case Boot(_, _, _) =>
    case Serve =>
  }

  lemma {:induction false} ApartHolds(evs: seq<Event>, c: Chat)
    ensures ApartOk(Exec(evs).mem, Exec(evs).notes, c)
  {
    if evs != [] {
      var past, ev := evs[..|evs| - 1], evs[|evs| - 1];
      ApartHolds(past, c);
      if Enabled(Exec(past), ev) {
        if Queues(ev) { ApartQueues(Exec(past), ev, c); } else { ApartRest(Exec(past), ev, c); }
      }
    }
  }

  /** In every run, aborts, failures, shutdowns and crashes included: two automatic
      compactions of a chat with a turn of that chat dispatched between them, the first
      compaction itself for one, have an ordinary answered turn between them that took
      a reading. */
  lemma AutomaticCompactionsAreApart(evs: seq<Event>, c: Chat, i: nat, k: nat, j: nat)
    requires i < k < j < |Exec(evs).notes|
    requires Exec(evs).notes[i] == AutoQueued(c) && Exec(evs).notes[j] == AutoQueued(c)
    requires Exec(evs).notes[k] == Dispatched(c)
    ensures exists m :: i < m < j && Exec(evs).notes[m] == ReadingTaken(c)
  {
    ApartHolds(evs, c);
    var notes := Exec(evs).notes;
    if forall m | i < m < j :: notes[m] != ReadingTaken(c) {
      var before := notes[..j];
      assert before[i] == notes[i] && before[k] == notes[k];
      DebtStays(before, c, i);
      assert false;
    }
  }

  // --- which events queue an automatic compaction ---

  ghost predicate QueuesAuto(w: World, ev: Event, c: Chat) {
    var notes := Next(w, ev).notes;
    |w.notes| < |notes| && AutoQueued(c) in notes[|w.notes|..]
  }

  /** The silent compactions this tick still counts as running. */
  function StillRunning(m: Memory): set<Chat> { set c | c in m.background && Busy(m, c) }

  /** The due chats whose caches expire before this one's. */
  function DueBefore(m: Memory, now: int, threshold: nat, lead: int, c: Chat): set<Chat>
    requires c in m.idle
  {
    set b | b in m.idle && DueForSilence(m, b, now, threshold, lead) && ExpiresBefore(m, b, c)
  }

  /** The tick's window is open for this chat, and the cap admits it. */
  predicate Admitted(m: Memory, now: int, threshold: nat, lead: int, c: Chat) {
    && DueForSilence(m, c, now, threshold, lead)
    && |DueBefore(m, now, threshold, lead, c)| + |StillRunning(m)| < IDLE_COMPACT_MAX_RUNNING
  }

  lemma {:induction false} DistinctSize(s: seq<Chat>, elements: set<Chat>)
    requires (forall i, j | 0 <= i < j < |s| :: s[i] != s[j]) && forall c :: c in elements <==> c in s
    ensures |elements| == |s|
    decreases |s|
  {
    if |s| == 0 {
      assert elements == {};
    } else {
      var last, rest := s[|s| - 1], s[..|s| - 1];
      assert s == rest + [last];
      DistinctSize(rest, elements - {last});
      assert elements == (elements - {last}) + {last};
    }
  }

  /** A due chat's place in the order is the number of due chats before it. */
  lemma PlaceIsCount(m: Memory, now: int, threshold: nat, lead: int, order: seq<Chat>, i: nat)
    requires DueOrder(m, now, threshold, lead, order) && i < |order|
    ensures order[i] in m.idle && |DueBefore(m, now, threshold, lead, order[i])| == i
  {
    OrderIsDistinct(m, now, threshold, lead, order);
    var c := order[i];
    assert DueForSilence(m, c, now, threshold, lead);
    var before := DueBefore(m, now, threshold, lead, c);
    forall b ensures b in before <==> b in order[..i] {
      if b in order {
        var j :| 0 <= j < |order| && order[j] == b;
        if j < i { assert ExpiresBefore(m, order[j], order[i]); assert order[..i][j] == b; }
        else if j > i { assert ExpiresBefore(m, order[i], order[j]); }
      } else {
        assert !DueForSilence(m, b, now, threshold, lead);
      }
    }
    DistinctSize(order[..i], before);
  }

  lemma AdmittedAreServed(w: World, now: int, threshold: nat, lead: int, order: seq<Chat>, c: Chat)
    requires DueOrder(w.mem, now, threshold, lead, order) && 0 <= Served(w, now, order) <= |order|
    ensures c in order[..Served(w, now, order)] <==> Admitted(w.mem, now, threshold, lead, c)
  {
    var k := Served(w, now, order);
    assert StillRunning(w.mem) == Refreshed(w.mem, now).background;
    assert c in order <==> DueForSilence(w.mem, c, now, threshold, lead);
    OrderIsDistinct(w.mem, now, threshold, lead, order);
    if c in order {
      var i :| 0 <= i < |order| && order[i] == c;
      PlaceIsCount(w.mem, now, threshold, lead, order, i);
      if i < k { assert order[..k][i] == c; }
      else { forall j | 0 <= j < k ensures order[..k][j] != c { assert order[j] != order[i]; } }
    }
  }

  /** The notes grew by automatic compactions only; `queued` says if one is of `c`. */
  ghost predicate Grew(before: seq<Note>, after: seq<Note>, c: Chat, queued: bool) {
    && |before| <= |after| && after[..|before|] == before
    && (forall x | |before| <= x < |after| :: after[x].AutoQueued?)
    && (AutoQueued(c) in after[|before|..] <==> queued)
  }

  lemma GrewByOneMore(before: seq<Note>, b: Chat, after: seq<Note>, c: Chat, queued: bool)
    requires Grew(before + [AutoQueued(b)], after, c, queued)
    ensures Grew(before, after, c, queued || b == c)
  {
    var n := |before|;
    assert after[n] == after[..n + 1][n] && after[..n] == after[..n + 1][..n];
    assert after[n..] == [AutoQueued(b)] + after[n + 1..];
  }

  lemma SilenceNotes(w: World, order: seq<Chat>, c: Chat)
    requires TasksOk(w.mem) && FlightOk(w.mem) && Claimable(w.mem, order)
    requires |w.mem.background| <= IDLE_COMPACT_MAX_RUNNING
    ensures Grew(w.notes, SilenceAll(w, order).notes, c,
                 c in order[..Min(|order|, IDLE_COMPACT_MAX_RUNNING - |w.mem.background|)])
    decreases |order|
  {
    var k := Min(|order|, IDLE_COMPACT_MAX_RUNNING - |w.mem.background|);
    if |order| != 0 && |w.mem.background| < IDLE_COMPACT_MAX_RUNNING {
      SilenceParts(w, order);
      SilenceNotes(Silence(w, order[0]), order[1..], c);
      GrewByOneMore(w.notes, order[0], SilenceAll(w, order).notes, c, c in order[1..][..k - 1]);
      FirstAndRest(order, k, c);
    } else {
      assert order[..k] == [];
    }
  }

  lemma SilenceParts(w: World, order: seq<Chat>)
    requires TasksOk(w.mem) && FlightOk(w.mem) && Claimable(w.mem, order) && |order| != 0
    ensures var w1 := Silence(w, order[0]);
      && TasksOk(w1.mem) && FlightOk(w1.mem) && Claimable(w1.mem, order[1..])
      && |w1.mem.background| == |w.mem.background| + 1 && w1.notes == w.notes + [AutoQueued(order[0])]
  {
    OneSilence(w, order[0], order[0]);
    TaskPut(Claimed(w, order[0]).mem, order[0], SILENT);
    ClaimableRest(w, order);
  }

  /** What a tick does to the notes. */
  lemma TickNotes(w: World, now: int, threshold: nat, lead: int, order: seq<Chat>, c: Chat)
    requires TaskInv(w) && SilentOk(w.mem, false) && DueOrder(w.mem, now, threshold, lead, order)
    ensures Grew(w.notes, SilenceAll(w.(mem := Refreshed(w.mem, now)), order).notes, c,
                 Admitted(w.mem, now, threshold, lead, c))
  {
    SilentRefresh(w.mem, now);
    TickIsClaimable(w, now, threshold, lead, order);
    assert FlightOk(Refreshed(w.mem, now));
    SilenceNotes(w.(mem := Refreshed(w.mem, now)), order, c);
    AdmittedAreServed(w, now, threshold, lead, order, c);
  }

  lemma ArriveNotes(w: World, b: Chat, due: bool, c: Chat)
    ensures var notes := ArriveStep(w, b, due).notes;
      |w.notes| < |notes| && AutoQueued(c) in notes[|w.notes|..] <==> due && b == c
  {
    assert (w.notes + [AutoQueued(b)])[|w.notes|..] == [AutoQueued(b)];
  }

  lemma MoveNotes(notes: seq<Note>, b: Chat, p: Phase, step: Step, c: Chat)
    ensures var more := Noted(notes, b, p, step);
      |notes| < |more| ==> AutoQueued(c) !in more[|notes|..]
  {
    assert (notes + [Dispatched(b)])[|notes|..] == [Dispatched(b)];
    assert (notes + [ReadingTaken(b)])[|notes|..] == [ReadingTaken(b)];
  }

  /** What any other event does to the notes. */
  lemma OtherNotes(w: World, ev: Event, c: Chat)
    requires Enabled(w, ev) && !ev.Tick?
    ensures QueuesAuto(w, ev, c) <==> ev.Arrive? && ev.chat == c && OverThreshold(w.mem.context, c, ev.threshold)
  {
    match ev
    case Arrive(b, threshold) => ArriveNotes(w, b, OverThreshold(w.mem.context, b, threshold), c);
    case Move(d, step) => MoveNotes(w.notes, w.mem.tasks[d].chat, w.mem.tasks[d].phase, step, c);
    case Accept(_, _) =>
    case Compact(_) =>
    case SessionChanges(_) =>
    case Take(_) =>
    case End(_, _) =>
    case Abort(_) =>
    case Shutdown =>
    case Crash =>
    case Boot(_, _, _) =>
    case Replay(_) =>
    case Serve =>
  }

  /** An automatic compaction is queued by a message over the threshold, or by a tick
      that finds the chat due and the cap not reached by those due before it. */
  lemma AutoQueuedExactly(evs: seq<Event>, ev: Event, c: Chat)
    requires Enabled(Exec(evs), ev)
    ensures var w := Exec(evs);
      QueuesAuto(w, ev, c) <==>
        || (ev.Arrive? && ev.chat == c && OverThreshold(w.mem.context, c, ev.threshold))
        || (ev.Tick? && Admitted(w.mem, ev.now, ev.threshold, ev.lead, c))
  {
    TaskHolds(evs);
    SilentHolds(evs);
    if ev.Tick? { TickNotes(Exec(evs), ev.now, ev.threshold, ev.lead, ev.order, c); }
    else { OtherNotes(Exec(evs), ev, c); }
  }

  // --- exactly when one follows another without a reading ---

  /** An automatic compaction of this chat was queued at `i`, and no reading since. */
  predicate OwedSince(notes: seq<Note>, c: Chat, i: nat) {
    i < |notes| && notes[i] == AutoQueued(c) && NoReading(notes, c, i, |notes|)
  }

  /** While a reading is owed, the next event queues another compaction of the chat if
      and only if it is a tick that finds the chat's idle reading inside its window and
      room under the cap; never the on-return gate. That reading is one no dispatch has
      dropped: no turn of the chat was dispatched since the first compaction. */
  lemma AnotherWithoutReading(evs: seq<Event>, ev: Event, c: Chat, i: nat)
    requires Enabled(Exec(evs), ev) && OwedSince(Exec(evs).notes, c, i)
    ensures var w := Exec(evs);
      && (QueuesAuto(w, ev, c) <==> ev.Tick? && Admitted(w.mem, ev.now, ev.threshold, ev.lead, c))
      && (QueuesAuto(w, ev, c) ==>
            c in w.mem.idle && forall k | i < k < |w.notes| :: w.notes[k] != Dispatched(c))
  {
    ApartHolds(evs, c);
    AutoQueuedExactly(evs, ev, c);
    DebtStays(Exec(evs).notes, c, i);
  }

  // --- while the turns of one chat reach their dispatch ---

  /** A turn of `c` is ahead of the point where it drops the idle reading. */
  predicate TurnAhead(m: Memory, c: Chat) {
    || |At(m.queues, c)| != 0
    || (Busy(m, c) && m.tasks[m.running[c]].phase.Starting? && !m.tasks[m.running[c]].cancelled)
  }

  /** No abort of `c`, and none of its turns refused or failing before its dispatch. */
  predicate Calm(w: World, ev: Event, c: Chat) {
    && !(ev.Abort? && ev.chat == c)
    && !(ev.Move? && CanMove(w.mem, ev.d, ev.step) && w.mem.tasks[ev.d].chat == c
         && w.mem.tasks[ev.d].phase.Starting? && (ev.step.Refuse? || ev.step.Raise?))
  }

  predicate TakesReading(w: World, ev: Event, c: Chat) {
    && ev.Move? && CanMove(w.mem, ev.d, ev.step) && w.mem.tasks[ev.d].chat == c
    && Reads(w.mem.tasks[ev.d].phase, ev.step)
  }

  predicate Ahead(m: Memory, stopping: bool, c: Chat) { stopping || (c in m.idle ==> TurnAhead(m, c)) }

  ghost predicate AheadOk(w: World, c: Chat) { Ahead(w.mem, w.stage.Stopping?, c) }

  lemma PutKeepsAhead(m: Memory, c: Chat, b: Chat, turn: Turn)
    requires TasksOk(m)
    ensures TurnAhead(m, c) ==> TurnAhead(Put(m, b, turn), c)
  {
    var m' := Put(m, b, turn);
    assert |At(m'.queues, b)| != 0;
    if b != c {
      assert At(m'.queues, c) == At(m.queues, c);
      assert Busy(m, c) ==> m.running[c] != m.spawned;
    }
  }

  lemma AheadSilence(w: World, order: seq<Chat>, c: Chat)
    requires TasksOk(w.mem) && FlightOk(w.mem) && AheadOk(w, c)
    ensures AheadOk(SilenceAll(w, order), c)
    decreases |order|
  {
    if |order| != 0 && |w.mem.background| < IDLE_COMPACT_MAX_RUNNING {
      TaskPut(Claimed(w, order[0]).mem, order[0], SILENT);
      PutKeepsAhead(Claimed(w, order[0]).mem, c, order[0], SILENT);
      AheadSilence(Silence(w, order[0]), order[1..], c);
    }
  }

  lemma AheadPut(m: Memory, b: Chat, turn: Turn, stopping: bool, c: Chat)
    requires TasksOk(m) && Ahead(m, stopping, c)
    ensures Ahead(Put(m, b, turn), stopping, c)
  {
    PutKeepsAhead(m, c, b, turn);
  }

  lemma AheadArrive(w: World, b: Chat, due: bool, c: Chat)
    requires TasksOk(w.mem) && AheadOk(w, c)
    ensures AheadOk(ArriveStep(w, b, due), c)
  {
    AheadPut(Consumed(w, b).mem, b, COMPACTION, w.stage.Stopping?, c);
  }

  lemma AheadTick(w: World, now: int, order: seq<Chat>, c: Chat)
    requires TaskInv(w) && AheadOk(w, c)
    ensures AheadOk(SilenceAll(w.(mem := Refreshed(w.mem, now)), order), c)
  {
    var w1 := w.(mem := Refreshed(w.mem, now));
    assert TasksOk(w1.mem) && FlightOk(w1.mem);
    AheadSilence(w1, order, c);
  }

  lemma AheadQueues(w: World, ev: Event, c: Chat)
    requires TaskInv(w) && AheadOk(w, c) && Enabled(w, ev) && Queues(ev)
    ensures AheadOk(Next(w, ev), c)
  {
    match ev
    case Arrive(b, threshold) => AheadArrive(w, b, OverThreshold(w.mem.context, b, threshold), c);
    case Accept(i, id) => AheadPut(w.mem, w.waiting[i].chat, Turn(id, false, false), w.stage.Stopping?, c);
    case Compact(b) => AheadPut(w.mem, b, COMPACTION, w.stage.Stopping?, c);
    case Tick(now, _, _, order) => AheadTick(w, now, order, c);
    case Replay(b) => AheadPut(w.mem, b, w.plan[b][0], w.stage.Stopping?, c);
  }

  lemma AheadTake(m: Memory, d: Task, stopping: bool, c: Chat)
    requires TasksOk(m) && Ahead(m, stopping, c) && d in m.tasks && m.tasks[d].phase.Idle?
    ensures Ahead(TakeMemory(m, d), stopping, c)
  {
    var b, m' := m.tasks[d].chat, TakeMemory(m, d);
    if b == c { assert |At(m.queues, c)| != 0 ==> m'.tasks[d].phase.Starting?; }
    else { assert At(m'.queues, c) == At(m.queues, c); }
  }

  lemma AheadMove(m: Memory, d: Task, journaled: bool, step: Step, stopping: bool, c: Chat)
    requires TasksOk(m) && Ahead(m, stopping, c) && CanMove(m, d, step)
    requires m.tasks[d].chat == c ==>
      !Reads(m.tasks[d].phase, step) && !(m.tasks[d].phase.Starting? && (step.Refuse? || step.Raise?))
    ensures Ahead(MoveMemory(m, d, journaled, step), stopping, c)
  {
    var m' := MoveMemory(m, d, journaled, step);
    assert m'.queues == m.queues;
    if Busy(m, c) && m.running[c] != d { assert m'.tasks[m.running[c]] == m.tasks[m.running[c]]; }
  }

  lemma AheadEnd(m: Memory, d: Task, released: bool, stopping: bool, c: Chat)
    requires TasksOk(m) && Ahead(m, stopping, c) && CanEnd(m, d)
    ensures Ahead(EndMemory(m, d, released), stopping, c)
  {
    var m' := EndMemory(m, d, released);
    assert m'.queues == m.queues;
    if Busy(m, c) && m.running[c] != d { assert m'.tasks[m.running[c]] == m.tasks[m.running[c]]; }
  }

  lemma AheadAbort(m: Memory, b: Chat, stopping: bool, c: Chat)
    requires TasksOk(m) && Ahead(m, stopping, c) && b != c
    ensures Ahead(AbortMemory(m, b), stopping, c)
  {
    var m' := AbortMemory(m, b);
    assert At(m'.queues, c) == At(m.queues, c);
    assert Busy(m, c) && Busy(m, b) ==> m.running[b] != m.running[c];
  }

  lemma AheadMoveStep(w: World, d: Task, step: Step, c: Chat)
    requires TasksOk(w.mem) && AheadOk(w, c) && CanMove(w.mem, d, step)
    requires Calm(w, Move(d, step), c) && !TakesReading(w, Move(d, step), c)
    ensures AheadOk(MoveStep(w, d, step), c)
  {
    AheadMove(w.mem, d, Journaled(w, w.mem.tasks[d].phase), step, w.stage.Stopping?, c);
  }

  lemma AheadTakeStep(w: World, d: Task, c: Chat)
    requires TasksOk(w.mem) && AheadOk(w, c) && d in w.mem.tasks && w.mem.tasks[d].phase.Idle?
    ensures AheadOk(TakeStep(w, d), c)
  {
    AheadTake(w.mem, d, w.stage.Stopping?, c);
  }

  lemma AheadEndStep(w: World, d: Task, released: bool, c: Chat)
    requires TasksOk(w.mem) && AheadOk(w, c) && CanEnd(w.mem, d)
    ensures AheadOk(EndStep(w, d, released), c)
  {
    AheadEnd(w.mem, d, released, w.stage.Stopping?, c);
  }

  lemma AheadOwn(w: World, ev: Event, c: Chat)
    requires TaskInv(w) && AheadOk(w, c) && Enabled(w, ev) && OfTask(ev)
    requires Calm(w, ev, c) && !TakesReading(w, ev, c)
    ensures AheadOk(Next(w, ev), c)
  {
    match ev
    case Take(d) => AheadTakeStep(w, d, c);
    case Move(d, step) => AheadMoveStep(w, d, step, c);
    case End(d, released) => AheadEndStep(w, d, released, c);
  }

  lemma AheadOther(w: World, ev: Event, c: Chat)
    requires TaskInv(w) && AheadOk(w, c) && Enabled(w, ev) && !Queues(ev) && !OfTask(ev) && Calm(w, ev, c)
    ensures AheadOk(Next(w, ev), c)
  {
    match ev
    case Abort(b) => AheadAbort(w.mem, b, w.stage.Stopping?, c);
    case Shutdown =>
    case SessionChanges(_) =>
    case Crash =>
    case Boot(_, _, _) =>
    case Serve =>
  }

  /** A debt goes with a reading only. */
  lemma DebtKept(evs: seq<Event>, ev: Event, c: Chat)
    requires Enabled(Exec(evs), ev) && DebtOf(Exec(evs).notes, c) != Clear && !TakesReading(Exec(evs), ev, c)
    ensures DebtOf(Next(Exec(evs), ev).notes, c) != Clear
  {
    var w := Exec(evs);
    if ev.Tick? {
      TaskHolds(evs);
      SilentHolds(evs);
      TickNotes(w, ev.now, ev.threshold, ev.lead, ev.order, c);
      DebtOutlasts(w.notes, Next(w, ev).notes, c);
    } else {
      DebtKeptOtherwise(w, ev, c);
    }
  }

  lemma DebtOutlasts(notes: seq<Note>, more: seq<Note>, c: Chat)
    requires DebtOf(notes, c) != Clear && |notes| <= |more| && more[..|notes|] == notes
    requires forall x | |notes| <= x < |more| :: more[x].AutoQueued?
    ensures DebtOf(more, c) != Clear
  {
    var i := DebtHasACause(notes, c);
    assert more[i] == more[..|notes|][i];
    forall k | i <= k < |more| ensures more[k] != ReadingTaken(c) {
      if k < |notes| { assert more[k] == more[..|notes|][k]; }
    }
    DebtStays(more, c, i);
  }

  lemma DebtArrive(w: World, b: Chat, due: bool, c: Chat)
    requires DebtOf(w.notes, c) != Clear
    ensures DebtOf(ArriveStep(w, b, due).notes, c) != Clear
  {
    DebtMore(w.notes, AutoQueued(b), c);
  }

  lemma DebtMove(notes: seq<Note>, b: Chat, p: Phase, step: Step, c: Chat)
    requires DebtOf(notes, c) != Clear && !(b == c && Reads(p, step))
    ensures DebtOf(Noted(notes, b, p, step), c) != Clear
  {
    DebtMore(notes, Dispatched(b), c);
    DebtMore(notes, ReadingTaken(b), c);
  }

  lemma DebtKeptOtherwise(w: World, ev: Event, c: Chat)
    requires Enabled(w, ev) && !ev.Tick? && DebtOf(w.notes, c) != Clear && !TakesReading(w, ev, c)
    ensures DebtOf(Next(w, ev).notes, c) != Clear
  {
    match ev
    case Arrive(b, threshold) => DebtArrive(w, b, OverThreshold(w.mem.context, b, threshold), c);
    case Move(d, step) => DebtMove(w.notes, w.mem.tasks[d].chat, w.mem.tasks[d].phase, step, c);
    case Accept(_, _) =>
    case Compact(_) =>
    case SessionChanges(_) =>
    case Take(_) =>
    case End(_, _) =>
    case Abort(_) =>
    case Shutdown =>
    case Crash =>
    case Boot(_, _, _) =>
    case Replay(_) =>
    case Serve =>
  }

  lemma NewDebt(before: seq<Note>, after: seq<Note>, c: Chat)
    requires Grew(before, after, c, true)
    ensures DebtOf(after, c) != Clear
  {
    var x :| 0 <= x < |after[|before|..]| && after[|before|..][x] == AutoQueued(c);
    DebtStays(after, c, |before| + x);
  }

  lemma TickQueued(w: World, now: int, threshold: nat, lead: int, order: seq<Chat>, c: Chat)
    requires TaskInv(w) && SilentOk(w.mem, false) && DueOrder(w.mem, now, threshold, lead, order)
    requires Admitted(w.mem, now, threshold, lead, c)
    ensures var w' := SilenceAll(w.(mem := Refreshed(w.mem, now)), order);
      DebtOf(w'.notes, c) != Clear && AheadOk(w', c)
  {
    var w' := SilenceAll(w.(mem := Refreshed(w.mem, now)), order);
    TickNotes(w, now, threshold, lead, order, c);
    NewDebt(w.notes, w'.notes, c);
    TickEffect(w, now, threshold, lead, order, c);
    AdmittedAreServed(w, now, threshold, lead, order, c);
    assert QueueOf(w'.mem, c) == [SILENT];
  }

  lemma ArriveQueued(w: World, c: Chat)
    ensures DebtOf(ArriveStep(w, c, true).notes, c) != Clear && AheadOk(ArriveStep(w, c, true), c)
  {
    DebtMore(w.notes, AutoQueued(c), c);
    assert |QueueOf(ArriveStep(w, c, true).mem, c)| != 0;
  }

  /** A compaction just queued is a debt, and waits in its queue. */
  lemma JustQueued(evs: seq<Event>, ev: Event, c: Chat)
    requires QueuesAuto(Exec(evs), ev, c)
    ensures DebtOf(Next(Exec(evs), ev).notes, c) != Clear && AheadOk(Next(Exec(evs), ev), c)
  {
    TaskHolds(evs);
    SilentHolds(evs);
    AutoQueuedExactly(evs, ev, c);
    if ev.Tick? { TickQueued(Exec(evs), ev.now, ev.threshold, ev.lead, ev.order, c); }
    else { ArriveQueued(Exec(evs), c); }
  }

  lemma {:induction false} StillOwed(evs: seq<Event>, c: Chat, a: nat)
    requires a < |evs| && QueuesAuto(Exec(evs[..a]), evs[a], c)
    requires forall x | a < x < |evs| ::
      Calm(Exec(evs[..x]), evs[x], c) && !TakesReading(Exec(evs[..x]), evs[x], c)
    ensures DebtOf(Exec(evs).notes, c) != Clear && AheadOk(Exec(evs), c)
  {
    var past, ev := evs[..|evs| - 1], evs[|evs| - 1];
    if a == |evs| - 1 {
      JustQueued(past, ev, c);
    } else {
      assert past[..a] == evs[..a] && past[a] == evs[a];
      forall x | a < x < |past|
        ensures Calm(Exec(past[..x]), past[x], c) && !TakesReading(Exec(past[..x]), past[x], c)
      {
        assert past[..x] == evs[..x] && past[x] == evs[x];
      }
      StillOwed(past, c, a);
      assert evs[..|evs| - 1] == past && Calm(Exec(past), ev, c) && !TakesReading(Exec(past), ev, c);
      TaskHolds(past);
      if Enabled(Exec(past), ev) {
        DebtKept(past, ev, c);
        if Queues(ev) { AheadQueues(Exec(past), ev, c); }
        else if OfTask(ev) { AheadOwn(Exec(past), ev, c); }
        else { AheadOther(Exec(past), ev, c); }
      }
    }
  }

  /** While a compaction is owed its reading and calm lasts, no other is queued. */
  lemma CalmQueuesNoOther(evs: seq<Event>, ev: Event, c: Chat, a: nat)
    requires a < |evs| && QueuesAuto(Exec(evs[..a]), evs[a], c)
    requires forall x | a < x < |evs| ::
      Calm(Exec(evs[..x]), evs[x], c) && !TakesReading(Exec(evs[..x]), evs[x], c)
    ensures !QueuesAuto(Exec(evs), ev, c)
  {
    StillOwed(evs, c, a);
    var i := DebtHasACause(Exec(evs).notes, c);
    if Enabled(Exec(evs), ev) { AnotherWithoutReading(evs, ev, c, i); }
  }

  /** If between two automatic compactions of a chat the chat is not aborted and each of
      its turns gets as far as its dispatch, a turn of the chat took a reading between
      them. What other chats do, shutdowns and crashes do not matter. */
  lemma CalmCompactionsAreApart(evs: seq<Event>, c: Chat, a: nat, b: nat)
    requires a < b < |evs|
    requires QueuesAuto(Exec(evs[..a]), evs[a], c) && QueuesAuto(Exec(evs[..b]), evs[b], c)
    requires forall x | a < x < b :: Calm(Exec(evs[..x]), evs[x], c)
    ensures exists x :: a < x < b && TakesReading(Exec(evs[..x]), evs[x], c)
  {
    if forall x | a < x < b :: !TakesReading(Exec(evs[..x]), evs[x], c) {
      var past := evs[..b];
      assert past[..a] == evs[..a] && past[a] == evs[a];
      forall x | a < x < |past|
        ensures Calm(Exec(past[..x]), past[x], c) && !TakesReading(Exec(past[..x]), past[x], c)
      {
        assert past[..x] == evs[..x] && past[x] == evs[x];
      }
      CalmQueuesNoOther(past, evs[b], c, a);
      assert false;
    }
  }
}
