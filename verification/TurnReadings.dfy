/** What the size table and the idle table hold, told from the history of a run: the
    reports of a chat's answered turns, and what came since. */
module TurnReadings {
  import opened Numbers
  import opened Options
  import opened TurnEngine
  import opened TurnRuns
  import opened TurnCompaction
  import opened TurnApart

  // --- the history of one chat ---

  /** The agent answers an ordinary turn of this chat. */
  predicate Answers(w: World, ev: Event, c: Chat) {
    && ev.Move? && ev.step.Respond? && CanMove(w.mem, ev.d, ev.step)
    && w.mem.tasks[ev.d].chat == c && !w.mem.tasks[ev.d].phase.turn.compact
  }

  predicate ReportsSize(w: World, ev: Event, c: Chat) { Answers(w, ev, c) && ev.step.usage.Some? }

  predicate ReportsIdle(w: World, ev: Event, c: Chat) { Answers(w, ev, c) && ev.step.reading.Some? }

  /** A task of this chat makes this step. */
  predicate Steps(w: World, ev: Event, c: Chat, step: Step) {
    ev.Move? && ev.step == step && CanMove(w.mem, ev.d, step) && w.mem.tasks[ev.d].chat == c
  }

  /** A compaction begins, the gate or a tick queues one, the session changes, or the
      process ends. */
  ghost predicate DropsSize(w: World, ev: Event, c: Chat) {
    Steps(w, ev, c, BeginCompaction) || QueuesAuto(w, ev, c) || ev == SessionChanges(c) || ev.Crash?
  }

  /** A turn is dispatched, a tick comes when the cache is gone or queues a compaction, the
      session changes, or the process ends. */
  ghost predicate DropsIdle(w: World, ev: Event, c: Chat, r: IdleReading) {
    || Steps(w, ev, c, Dispatch)
    || (ev.Tick? && Enabled(w, ev) && (r.endedAt + r.ttl <= ev.now || QueuesAuto(w, ev, c)))
    || ev == SessionChanges(c) || ev.Crash?
  }

  /** The event at `a` reported the size of this chat's context, the last that did, and
      nothing dropped the reading since. */
  ghost predicate LastSize(evs: seq<Event>, a: nat, c: Chat) {
    && a < |evs| && ReportsSize(Exec(evs[..a]), evs[a], c)
    && forall x | a < x < |evs| :: LeavesSize(Exec(evs[..x]), evs[x], c)
  }

  ghost predicate LeavesSize(w: World, ev: Event, c: Chat) { !ReportsSize(w, ev, c) && !DropsSize(w, ev, c) }

  ghost predicate LeavesIdle(w: World, ev: Event, c: Chat, r: IdleReading) {
    !ReportsIdle(w, ev, c) && !DropsIdle(w, ev, c, r)
  }

  ghost predicate LastIdle(evs: seq<Event>, a: nat, c: Chat) {
    && a < |evs| && ReportsIdle(Exec(evs[..a]), evs[a], c)
    && forall x | a < x < |evs| :: LeavesIdle(Exec(evs[..x]), evs[x], c, evs[a].step.reading.value)
  }

  // --- what one event does to the two tables ---

  /** What a round of silent compactions does to one chat's readings. */
  lemma SilenceReadings(w: World, order: seq<Chat>, c: Chat)
    requires TasksOk(w.mem) && FlightOk(w.mem) && Claimable(w.mem, order)
    requires |w.mem.background| <= IDLE_COMPACT_MAX_RUNNING
    ensures var served := c in order[..Min(|order|, IDLE_COMPACT_MAX_RUNNING - |w.mem.background|)];
      && SameAt(w.mem.context, SilenceAll(w, order).mem.context, c, served)
      && SameAt(w.mem.idle, SilenceAll(w, order).mem.idle, c, served)
    decreases |order|
  {
    if |order| != 0 && |w.mem.background| < IDLE_COMPACT_MAX_RUNNING {
      SilenceParts(w, order);
      SilenceReadings(Silence(w, order[0]), order[1..], c);
      FirstAndRest(order, Min(|order|, IDLE_COMPACT_MAX_RUNNING - |w.mem.background|), c);
    }
  }

  /** The later table has nothing for this chat, or what the earlier had. */
  predicate SameAt<T(==)>(before: map<Chat, T>, after: map<Chat, T>, c: Chat, dropped: bool) {
    if dropped then c !in after
    else (c in after <==> c in before) && (c in after ==> after[c] == before[c])
  }

  lemma TickReadings(w: World, now: int, threshold: nat, lead: int, order: seq<Chat>, c: Chat)
    requires TaskInv(w) && SilentOk(w.mem, false) && Enabled(w, Tick(now, threshold, lead, order))
    ensures var ev := Tick(now, threshold, lead, order);
      && SameAt(w.mem.context, Next(w, ev).mem.context, c, QueuesAuto(w, ev, c))
      && SameAt(w.mem.idle, Next(w, ev).mem.idle, c,
                QueuesAuto(w, ev, c) || (c in w.mem.idle && Expired(w.mem.idle[c], now)))
  {
    SilentRefresh(w.mem, now);
    TickIsClaimable(w, now, threshold, lead, order);
    assert FlightOk(Refreshed(w.mem, now));
    SilenceReadings(w.(mem := Refreshed(w.mem, now)), order, c);
    TickNotes(w, now, threshold, lead, order, c);
    AdmittedAreServed(w, now, threshold, lead, order, c);
  }

  /** What one event does to both readings. */
  ghost predicate Follows(w: World, ev: Event, m: Memory, c: Chat) {
    && (if ReportsSize(w, ev, c) then c in m.context && m.context[c] == ev.step.usage.value
        else SameAt(w.mem.context, m.context, c, DropsSize(w, ev, c)))
    && (if ReportsIdle(w, ev, c) then c in m.idle && m.idle[c] == ev.step.reading.value
        else SameAt(w.mem.idle, m.idle, c, c in w.mem.idle && DropsIdle(w, ev, c, w.mem.idle[c])))
  }

  lemma TickFollows(w: World, ev: Event, c: Chat)
    requires TaskInv(w) && SilentOk(w.mem, false) && Enabled(w, ev) && ev.Tick?
    ensures Follows(w, ev, Next(w, ev).mem, c)
  {
    TickReadings(w, ev.now, ev.threshold, ev.lead, ev.order, c);
  }

  lemma ArriveReadings(w: World, b: Chat, due: bool, c: Chat)
    ensures SameAt(w.mem.context, ArriveStep(w, b, due).mem.context, c, due && b == c)
    ensures ArriveStep(w, b, due).mem.idle == w.mem.idle
  {
  }

  lemma ArriveFollows(w: World, ev: Event, c: Chat)
    requires Enabled(w, ev) && ev.Arrive?
    ensures Follows(w, ev, Next(w, ev).mem, c)
  {
    OtherNotes(w, ev, c);
    var due := OverThreshold(w.mem.context, ev.chat, ev.threshold);
    ArriveReadings(w, ev.chat, due, c);
    assert Next(w, ev) == ArriveStep(w, ev.chat, due);
  }

  lemma MoveFollows(w: World, d: Task, step: Step, c: Chat)
    requires CanMove(w.mem, d, step)
    ensures Follows(w, Move(d, step), MoveStep(w, d, step).mem, c)
  {
    OtherNotes(w, Move(d, step), c);
  }

  /** Queuing a turn leaves the readings. */
  lemma QueuingFollows(w: World, ev: Event, c: Chat)
    requires Enabled(w, ev) && (ev.Accept? || ev.Compact? || ev.Replay?)
    ensures Follows(w, ev, Next(w, ev).mem, c)
  {
    OtherNotes(w, ev, c);
    var m := Next(w, ev).mem;
    assert m.context == w.mem.context && m.idle == w.mem.idle by { QueuingKeeps(w, ev); }
  }

  lemma QueuingKeeps(w: World, ev: Event)
    requires Enabled(w, ev) && (ev.Accept? || ev.Compact? || ev.Replay?)
    ensures Next(w, ev).mem.context == w.mem.context && Next(w, ev).mem.idle == w.mem.idle
  {
    match ev
    case Accept(i, id) => assert Next(w, ev) == AcceptStep(w, i, id);
    case Compact(c) => assert Next(w, ev) == Enqueued(w, c, COMPACTION);
    case Replay(c) => assert Next(w, ev) == ReplayStep(w, c);
  }

  /** The rest leaves them too, or is a session change or a crash. */
  lemma RestKeeps(w: World, ev: Event, c: Chat)
    requires Enabled(w, ev) && !Queues(ev) && !ev.Move?
    ensures SameAt(w.mem.context, Next(w, ev).mem.context, c, ev == SessionChanges(c) || ev.Crash?)
    ensures SameAt(w.mem.idle, Next(w, ev).mem.idle, c, ev == SessionChanges(c) || ev.Crash?)
  {
    match ev
    case SessionChanges(_) =>
    case Take(d) => assert Next(w, ev) == TakeStep(w, d);
    case End(d, released) => assert Next(w, ev) == EndStep(w, d, released);
    case Abort(b) => assert Next(w, ev) == AbortStep(w, b);
    case Shutdown =>
    case Crash =>
    case Boot(_, _, _) =>
    case Serve =>
  }

  lemma RestFollows(w: World, ev: Event, c: Chat)
    requires Enabled(w, ev) && !Queues(ev) && !ev.Move?
    ensures Follows(w, ev, Next(w, ev).mem, c)
  {
    OtherNotes(w, ev, c);
    RestKeeps(w, ev, c);
  }

  lemma ReadingsFollow(evs: seq<Event>, ev: Event, c: Chat)
    ensures Follows(Exec(evs), ev, Next(Exec(evs), ev).mem, c)
  {
    var w := Exec(evs);
    if Enabled(w, ev) {
      TaskHolds(evs);
      SilentHolds(evs);
      if ev.Arrive? { ArriveFollows(w, ev, c); }
      else if ev.Tick? { TickFollows(w, ev, c); }
      else if ev.Move? { MoveFollows(w, ev.d, ev.step, c); }
      else if Queues(ev) { QueuingFollows(w, ev, c); }
      else { RestFollows(w, ev, c); }
    }
  }

  // --- what the tables hold after any run ---

  /** One event later: the report just made is the last, or the last is what it was. */
  lemma LastSizeNext(evs: seq<Event>, ev: Event, a: nat, c: Chat)
    ensures LastSize(evs + [ev], a, c) <==>
      if ReportsSize(Exec(evs), ev, c) then a == |evs| else LastSize(evs, a, c) && !DropsSize(Exec(evs), ev, c)
  {
    var more := evs + [ev];
    assert more[..|evs|] == evs && more[|evs|] == ev;
    forall x | 0 <= x < |evs| ensures more[..x] == evs[..x] && more[x] == evs[x] {}
  }

  lemma LastIdleNext(evs: seq<Event>, ev: Event, a: nat, c: Chat)
    ensures LastIdle(evs + [ev], a, c) <==>
      if ReportsIdle(Exec(evs), ev, c) then a == |evs|
      else LastIdle(evs, a, c) && !DropsIdle(Exec(evs), ev, c, evs[a].step.reading.value)
  {
    var more := evs + [ev];
    assert more[..|evs|] == evs && more[|evs|] == ev;
    forall x | 0 <= x < |evs| ensures more[..x] == evs[..x] && more[x] == evs[x] {}
  }

  /** The size table holds, for every chat and after every run, exactly the last usage an
      ordinary turn of the chat was answered with in this process, unless a compaction
      began, the gate or a tick consumed it, or the session changed since. */
  lemma {:induction false} SizeIsTheLastReported(evs: seq<Event>, c: Chat)
    ensures c in Exec(evs).mem.context <==> exists a: nat :: LastSize(evs, a, c)
    ensures forall a: nat | LastSize(evs, a, c) :: Exec(evs).mem.context[c] == evs[a].step.usage.value
  {
    if evs != [] {
      var past, ev := evs[..|evs| - 1], evs[|evs| - 1];
      assert evs == past + [ev];
      SizeIsTheLastReported(past, c);
      ReadingsFollow(past, ev, c);
      forall a: nat { LastSizeNext(past, ev, a, c); }
      if ReportsSize(Exec(past), ev, c) { assert LastSize(evs, |past|, c); }
      else if a: nat :| LastSize(past, a, c) && !DropsSize(Exec(past), ev, c) { assert LastSize(evs, a, c); }
    }
  }

  /** The idle table likewise: the last idle reading of an answered turn, unless a turn
      was dispatched, a tick found its cache expired or consumed it, or the session
      changed since. */
  lemma {:induction false} IdleIsTheLastReported(evs: seq<Event>, c: Chat)
    ensures c in Exec(evs).mem.idle <==> exists a: nat :: LastIdle(evs, a, c)
    ensures forall a: nat | LastIdle(evs, a, c) :: Exec(evs).mem.idle[c] == evs[a].step.reading.value
  {
    if evs != [] {
      var past, ev := evs[..|evs| - 1], evs[|evs| - 1];
      assert evs == past + [ev];
      IdleIsTheLastReported(past, c);
      ReadingsFollow(past, ev, c);
      forall a: nat { LastIdleNext(past, ev, a, c); }
      if ReportsIdle(Exec(past), ev, c) { assert LastIdle(evs, |past|, c); }
      else if a: nat :| LastIdle(past, a, c) && !DropsIdle(Exec(past), ev, c, evs[a].step.reading.value) {
        assert LastIdle(evs, a, c);
      }
    }
  }

  // --- what the gate and the tick then do ---

  /** The usage reported is at least this many percent of its window, and 0 is off. */
  predicate OverPercent(report: Event, threshold: nat) {
    && report.Move? && report.step.Respond? && report.step.usage.Some?
    && var used := report.step.usage.value;
       threshold > 0 && used.window > 0 && 100 * used.tokens >= threshold * used.window
  }

  lemma ArriveQueues(w: World, c: Chat, due: bool)
    ensures QueueOf(ArriveStep(w, c, due).mem, c) == QueueOf(w.mem, c) + if due then [COMPACTION] else []
  {
  }

  /** A message queues a compaction ahead of itself if and only if the last reported size
      still stands and reaches `threshold` percent of the window it was reported with. */
  lemma GateGoesByTheLastReport(evs: seq<Event>, c: Chat, threshold: nat)
    requires Enabled(Exec(evs), Arrive(c, threshold))
    ensures var m, m' := Exec(evs).mem, Next(Exec(evs), Arrive(c, threshold)).mem;
      var over := exists a: nat :: LastSize(evs, a, c) && OverPercent(evs[a], threshold);
      && (QueuesAuto(Exec(evs), Arrive(c, threshold), c) <==> over)
      && QueueOf(m', c) == QueueOf(m, c) + if over then [COMPACTION] else []
  {
    var w := Exec(evs);
    SizeIsTheLastReported(evs, c);
    OtherNotes(w, Arrive(c, threshold), c);
    ArriveQueues(w, c, OverThreshold(w.mem.context, c, threshold));
    if OverThreshold(w.mem.context, c, threshold) {
      var a: nat :| LastSize(evs, a, c);
      assert OverPercent(evs[a], threshold);
    }
  }

  /** The chat has nothing to do, and its last idle reading still stands, is big enough, and
      its cache lives on, but not for longer than `lead`. */
  ghost predicate InWindow(evs: seq<Event>, c: Chat, now: int, threshold: nat, lead: int) {
    && !Busy(Exec(evs).mem, c) && QueueOf(Exec(evs).mem, c) == []
    && exists a: nat :: LastIdle(evs, a, c) && RunsOutWithin(evs[a], now, threshold, lead)
  }

  predicate RunsOutWithin(report: Event, now: int, threshold: nat, lead: int) {
    && report.Move? && report.step.Respond? && report.step.reading.Some?
    && var r := report.step.reading.value;
       r.tokens >= threshold && r.ttl > lead && now < r.endedAt + r.ttl <= now + lead
  }

  /** The chats in their window whose caches run out before this one's. */
  ghost function Sooner(evs: seq<Event>, c: Chat, now: int, threshold: nat, lead: int): set<Chat>
    requires c in Exec(evs).mem.idle
  {
    var idle := Exec(evs).mem.idle;
    set b | b in idle && InWindow(evs, b, now, threshold, lead)
      && (|| idle[b].endedAt + idle[b].ttl < idle[c].endedAt + idle[c].ttl
          || (idle[b].endedAt + idle[b].ttl == idle[c].endedAt + idle[c].ttl && b < c))
  }

  lemma DueIsInWindow(evs: seq<Event>, c: Chat, now: int, threshold: nat, lead: int)
    ensures DueForSilence(Exec(evs).mem, c, now, threshold, lead) <==> InWindow(evs, c, now, threshold, lead)
    ensures InWindow(evs, c, now, threshold, lead) ==> c in Exec(evs).mem.idle
  {
    IdleIsTheLastReported(evs, c);
    if DueForSilence(Exec(evs).mem, c, now, threshold, lead) {
      var a: nat :| LastIdle(evs, a, c);
      assert RunsOutWithin(evs[a], now, threshold, lead);
    }
  }

  /** A tick queues a silent compaction for a chat if and only if the chat is in its window
      and there is room for it after those whose caches run out sooner. */
  lemma TickServesTheNearest(evs: seq<Event>, now: int, threshold: nat, lead: int, order: seq<Chat>, c: Chat)
    requires Enabled(Exec(evs), Tick(now, threshold, lead, order))
    ensures QueuesAuto(Exec(evs), Tick(now, threshold, lead, order), c) <==>
      && InWindow(evs, c, now, threshold, lead) && c in Exec(evs).mem.idle
      && |Sooner(evs, c, now, threshold, lead)| + |StillRunning(Exec(evs).mem)| < IDLE_COMPACT_MAX_RUNNING
  {
    var m := Exec(evs).mem;
    AutoQueuedExactly(evs, Tick(now, threshold, lead, order), c);
    forall b { DueIsInWindow(evs, b, now, threshold, lead); }
    if c in m.idle { assert Sooner(evs, c, now, threshold, lead) == DueBefore(m, now, threshold, lead, c); }
  }

  // --- which silent compactions still count ---

  /** A silent compaction of this chat is through, or was given up; or a tick finds that the
      chat has nothing to do, or the process ends. */
  ghost predicate Frees(w: World, ev: Event, c: Chat) {
    || (ev.Move? && ev.step.Release? && CanMove(w.mem, ev.d, ev.step) && w.mem.tasks[ev.d].chat == c
        && w.mem.tasks[ev.d].phase.turn.background)
    || (ev.End? && ev.released && CanEnd(w.mem, ev.d) && w.mem.tasks[ev.d].chat == c
        && w.mem.tasks[ev.d].phase.Unwinding? && w.mem.tasks[ev.d].phase.turn.background)
    || (ev.Tick? && Enabled(w, ev) && !Busy(w.mem, c)) || ev.Crash?
  }

  /** A tick queued a silent compaction of this chat, and nothing freed its place since. */
  ghost predicate HoldsAPlace(evs: seq<Event>, c: Chat) {
    evs != [] &&
    var past, ev := evs[..|evs| - 1], evs[|evs| - 1];
    if ev.Tick? && QueuesAuto(Exec(past), ev, c) then true
    else HoldsAPlace(past, c) && !Frees(Exec(past), ev, c)
  }

  lemma SilencePlaces(w: World, order: seq<Chat>, c: Chat)
    requires TasksOk(w.mem) && FlightOk(w.mem) && Claimable(w.mem, order)
    requires |w.mem.background| <= IDLE_COMPACT_MAX_RUNNING
    ensures c in SilenceAll(w, order).mem.background <==>
      || c in w.mem.background
      || c in order[..Min(|order|, IDLE_COMPACT_MAX_RUNNING - |w.mem.background|)]
    decreases |order|
  {
    if |order| != 0 && |w.mem.background| < IDLE_COMPACT_MAX_RUNNING {
      SilenceParts(w, order);
      SilencePlaces(Silence(w, order[0]), order[1..], c);
      FirstAndRest(order, Min(|order|, IDLE_COMPACT_MAX_RUNNING - |w.mem.background|), c);
    }
  }

  lemma TickPlaces(w: World, ev: Event, c: Chat)
    requires TaskInv(w) && SilentOk(w.mem, false) && Enabled(w, ev) && ev.Tick?
    ensures c in Next(w, ev).mem.background
      <==> QueuesAuto(w, ev, c) || (c in w.mem.background && Busy(w.mem, c))
  {
    SilentRefresh(w.mem, ev.now);
    TickIsClaimable(w, ev.now, ev.threshold, ev.lead, ev.order);
    assert FlightOk(Refreshed(w.mem, ev.now));
    SilencePlaces(w.(mem := Refreshed(w.mem, ev.now)), ev.order, c);
    TickNotes(w, ev.now, ev.threshold, ev.lead, ev.order, c);
    AdmittedAreServed(w, ev.now, ev.threshold, ev.lead, ev.order, c);
  }

  lemma QueuingPlaces(w: World, ev: Event, c: Chat)
    requires Enabled(w, ev) && Queues(ev) && !ev.Tick?
    ensures Next(w, ev).mem.background == w.mem.background
  {
    if ev.Arrive? { ArrivePlaces(w, ev.chat, OverThreshold(w.mem.context, ev.chat, ev.threshold)); }
    else if ev.Accept? { assert Next(w, ev) == AcceptStep(w, ev.index, ev.id); }
  }

  lemma ArrivePlaces(w: World, c: Chat, due: bool)
    ensures ArriveStep(w, c, due).mem.background == w.mem.background
  {
  }

  lemma MovePlaces(w: World, d: Task, step: Step, c: Chat)
    requires CanMove(w.mem, d, step)
    ensures c in MoveStep(w, d, step).mem.background <==> c in w.mem.background && !Frees(w, Move(d, step), c)
  {
  }

  lemma RestPlaces(w: World, ev: Event, c: Chat)
    requires Enabled(w, ev) && !Queues(ev) && !ev.Move?
    ensures c in Next(w, ev).mem.background <==> c in w.mem.background && !Frees(w, ev, c)
  {
    match ev
    case Take(d) => assert Next(w, ev) == TakeStep(w, d);
    case End(d, released) => assert Next(w, ev) == EndStep(w, d, released);
    case Abort(b) => assert Next(w, ev) == AbortStep(w, b);
    case SessionChanges(_) =>
    case Shutdown =>
    case Crash =>
    case Boot(_, _, _) =>
    case Serve =>
  }

  /** The table of silent compactions holds exactly the chats whose last one still has its
      place: from the tick that queued it until it is through, whatever the outcome, or a
      tick finds the chat with nothing to do. */
  lemma {:induction false} PlacesAreHeld(evs: seq<Event>, c: Chat)
    ensures c in Exec(evs).mem.background <==> HoldsAPlace(evs, c)
  {
    if evs != [] {
      var past, ev := evs[..|evs| - 1], evs[|evs| - 1];
      var w := Exec(past);
      PlacesAreHeld(past, c);
      if Enabled(w, ev) {
        TaskHolds(past);
        SilentHolds(past);
        if ev.Tick? { TickPlaces(w, ev, c); }
        else if Queues(ev) { QueuingPlaces(w, ev, c); }
        else if ev.Move? { MovePlaces(w, ev.d, ev.step, c); }
        else { RestPlaces(w, ev, c); }
      }
    }
  }
}
