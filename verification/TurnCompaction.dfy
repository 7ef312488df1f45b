/** Silent compactions in the turn engine: how many, when, and for which chats. */
module TurnCompaction {
  import opened Numbers
  import opened TurnEngine
  import opened TurnRuns
  import opened TurnStart

  /** The phases in which a turn is still worked on. */
  predicate Working(p: Phase) { HasTurn(p) && !p.Closing? && !p.Failing? }

  /** A silent compaction waits at the head of its queue, its task not started, and its
      chat counts against the cap until the compaction is through. */
  ghost predicate SilentOk(m: Memory, stopping: bool) {
    && |m.background| <= IDLE_COMPACT_MAX_RUNNING
    && (forall c, i | 0 <= i < |At(m.queues, c)| && At(m.queues, c)[i].background ::
          && i == 0 && c in m.background
          && (forall d | d in m.tasks && m.tasks[d].chat == c :: m.tasks[d].phase.Idle?)
          && (stopping || (Busy(m, c) && !m.tasks[m.running[c]].cancelled)))
    && (forall d | d in m.tasks && Working(m.tasks[d].phase) && m.tasks[d].phase.turn.background ::
          m.tasks[d].chat in m.background)
  }

  ghost predicate SilentInv(w: World) { SilentOk(w.mem, w.stage.Stopping?) }

  lemma SilentPut(m: Memory, stopping: bool, c: Chat, turn: Turn)
    requires TasksOk(m) && SilentOk(m, stopping)
    requires turn.background ==> !Busy(m, c) && |At(m.queues, c)| == 0 && c in m.background
    ensures SilentOk(Put(m, c, turn), stopping)
  {
    var m' := Put(m, c, turn);
    forall b ensures At(m'.queues, b) == (if b == c then At(m.queues, c) + [turn] else At(m.queues, b)) {}
  }

  /** One silent compaction changes its own chat's queue, and claims a place. */
  lemma OneSilence(w: World, c: Chat, b: Chat)
    requires !Busy(w.mem, c) && |At(w.mem.queues, c)| == 0 && c !in w.mem.background
    ensures var m := Silence(w, c).mem;
      && At(m.queues, b) == (if b == c then [SILENT] else At(w.mem.queues, b))
      && m.background == w.mem.background + {c} && |m.background| == |w.mem.background| + 1
      && (b != c ==> (Busy(w.mem, b) ==> Busy(m, b)))
      && (b != c && !Busy(w.mem, b) && TasksOk(w.mem) ==> !Busy(m, b))
  {
  }

  /** Distinct chats with nothing to do and no place claimed yet. */
  ghost predicate Claimable(m: Memory, order: seq<Chat>) {
    && (forall i, j | 0 <= i < j < |order| :: order[i] != order[j])
    && (forall i | 0 <= i < |order| ::
          !Busy(m, order[i]) && |At(m.queues, order[i])| == 0 && order[i] !in m.background)
  }

  lemma ClaimableRest(w: World, order: seq<Chat>)
    requires TasksOk(w.mem) && Claimable(w.mem, order) && |order| != 0
    ensures Claimable(Silence(w, order[0]).mem, order[1..])
  {
    var c, rest := order[0], order[1..];
    forall i | 0 <= i < |rest|
      ensures !Busy(Silence(w, c).mem, rest[i]) && |At(Silence(w, c).mem.queues, rest[i])| == 0
        && rest[i] !in Silence(w, c).mem.background
    {
      assert rest[i] == order[i + 1];
      OneSilence(w, c, rest[i]);
    }
  }

  /** Which queues one round of silent compactions changes: those of the first chats
      in the order, as many as the cap still admits. */
  lemma SilenceEffect(w: World, order: seq<Chat>, b: Chat)
    requires TasksOk(w.mem) && FlightOk(w.mem) && Claimable(w.mem, order)
    requires |w.mem.background| <= IDLE_COMPACT_MAX_RUNNING
    ensures var k := Min(|order|, IDLE_COMPACT_MAX_RUNNING - |w.mem.background|);
      At(SilenceAll(w, order).mem.queues, b) == if b in order[..k] then [SILENT] else At(w.mem.queues, b)
    decreases |order|
  {
    if |order| != 0 && |w.mem.background| < IDLE_COMPACT_MAX_RUNNING {
      var c, rest := order[0], order[1..];
      var k := Min(|order|, IDLE_COMPACT_MAX_RUNNING - |w.mem.background|);
      OneSilence(w, c, b);
      TaskPut(Claimed(w, c).mem, c, SILENT);
      ClaimableRest(w, order);
      SilenceEffect(Silence(w, c), rest, b);
      FirstAndRest(order, k, b);
    }
  }

  lemma FirstAndRest(order: seq<Chat>, k: int, b: Chat)
    requires 0 < k <= |order| && forall i, j | 0 <= i < j < |order| :: order[i] != order[j]
    ensures b in order[..k] <==> b == order[0] || b in order[1..][..k - 1]
    ensures order[0] !in order[1..][..k - 1]
  {
    assert order[..k] == [order[0]] + order[1..][..k - 1];
  }

  lemma SilentSilence(w: World, order: seq<Chat>)
    requires TasksOk(w.mem) && FlightOk(w.mem) && SilentInv(w) && !w.stage.Stopping?
    requires forall i, j | 0 <= i < j < |order| :: order[i] != order[j]
    requires forall i | 0 <= i < |order| :: !Busy(w.mem, order[i]) && |At(w.mem.queues, order[i])| == 0
    ensures SilentInv(SilenceAll(w, order))
    decreases |order|
  {
    if |order| != 0 && |w.mem.background| < IDLE_COMPACT_MAX_RUNNING {
      var c := order[0];
      assert SilentOk(Claimed(w, c).mem, false);
      SilentPut(Claimed(w, c).mem, false, c, SILENT);
      TaskPut(Claimed(w, c).mem, c, SILENT);
      SilentSilence(Silence(w, c), order[1..]);
    }
  }

  lemma SilentRefresh(m: Memory, now: int)
    requires TasksOk(m) && SilentOk(m, false)
    ensures SilentOk(Refreshed(m, now), false)
  {
    var kept := set c | c in m.background && Busy(m, c);
    SubsetSize(kept, m.background);
  }

  lemma SubsetSize(small: set<Chat>, big: set<Chat>)
    requires small <= big
    ensures |small| <= |big|
  {
    assert big == small + (big - small);
  }

  lemma OrderIsDistinct(m: Memory, now: int, threshold: nat, lead: int, order: seq<Chat>)
    requires DueOrder(m, now, threshold, lead, order)
    ensures forall i, j | 0 <= i < j < |order| :: order[i] != order[j]
    ensures forall i | 0 <= i < |order| :: DueForSilence(m, order[i], now, threshold, lead)
  {
    forall i, j | 0 <= i < j < |order| ensures order[i] != order[j] {
      assert ExpiresBefore(m, order[i], order[j]);
    }
    forall i | 0 <= i < |order| ensures DueForSilence(m, order[i], now, threshold, lead) {
      assert order[i] in order;
    }
  }

  lemma SilentTick(w: World, now: int, threshold: nat, lead: int, order: seq<Chat>)
    requires TaskInv(w) && SilentInv(w) && !w.stage.Stopping? && DueOrder(w.mem, now, threshold, lead, order)
    ensures SilentInv(SilenceAll(w.(mem := Refreshed(w.mem, now)), order))
  {
    var w1 := w.(mem := Refreshed(w.mem, now));
    assert TasksOk(w1.mem) && FlightOk(w1.mem);
    OrderIsDistinct(w.mem, now, threshold, lead, order);
    SilentRefresh(w.mem, now);
    SilentSilence(w1, order);
  }

  lemma SilentArrive(w: World, c: Chat, due: bool)
    requires TaskInv(w) && SilentInv(w)
    ensures SilentInv(ArriveStep(w, c, due))
  {
    SilentPut(Consumed(w, c).mem, w.stage.Stopping?, c, COMPACTION);
  }

  /** Nothing planned for replay is a silent compaction. */
  ghost predicate PlanLoud(w: World) {
    forall c, i | 0 <= i < |At(w.plan, c)| :: !At(w.plan, c)[i].background
  }

  lemma SilentReplay(w: World, c: Chat)
    requires TaskInv(w) && SilentInv(w) && PlanLoud(w) && |PlanOf(w, c)| != 0
    ensures SilentInv(ReplayStep(w, c)) && PlanLoud(ReplayStep(w, c))
  {
    assert !At(w.plan, c)[0].background;
    SilentPut(w.mem, w.stage.Stopping?, c, w.plan[c][0]);
    var w' := ReplayStep(w, c);
    forall b, i | 0 <= i < |At(w'.plan, b)| ensures !At(w'.plan, b)[i].background {
      assert At(w'.plan, b)[i] == At(w.plan, b)[if b == c then i + 1 else i];
    }
  }

  lemma SilentTake(m: Memory, stopping: bool, d: Task)
    requires TasksOk(m) && SilentOk(m, stopping) && d in m.tasks && m.tasks[d].phase.Idle?
    ensures SilentOk(TakeMemory(m, d), stopping)
  {
    var c := m.tasks[d].chat;
    var m' := TakeMemory(m, d);
    forall i | 0 <= i < |At(m'.queues, c)| ensures !At(m'.queues, c)[i].background {
      assert At(m'.queues, c)[i] == At(m.queues, c)[i + 1];
    }
    assert forall b | b != c :: At(m'.queues, b) == At(m.queues, b);
  }

  /** The part about waiting silent compactions. */
  ghost predicate WaitOk(m: Memory, stopping: bool) {
    forall c, i | 0 <= i < |At(m.queues, c)| && At(m.queues, c)[i].background ::
      && i == 0 && c in m.background
      && (forall d | d in m.tasks && m.tasks[d].chat == c :: m.tasks[d].phase.Idle?)
      && (stopping || (Busy(m, c) && !m.tasks[m.running[c]].cancelled))
  }

  lemma SilentMoveWait(m: Memory, stopping: bool, d: Task, journaled: bool, step: Step)
    requires TasksOk(m) && WaitOk(m, stopping) && CanMove(m, d, step)
    ensures WaitOk(MoveMemory(m, d, journaled, step), stopping)
  {
    var m' := MoveMemory(m, d, journaled, step);
    assert !m.tasks[d].phase.Idle?;
    forall c, i | 0 <= i < |At(m'.queues, c)| && At(m'.queues, c)[i].background
      ensures && i == 0 && c in m'.background
              && (forall e | e in m'.tasks && m'.tasks[e].chat == c :: m'.tasks[e].phase.Idle?)
              && (stopping || (Busy(m', c) && !m'.tasks[m'.running[c]].cancelled))
    {
      assert m.tasks[d].chat != c;
    }
  }

  lemma SilentMove(m: Memory, stopping: bool, d: Task, journaled: bool, step: Step)
    requires TasksOk(m) && SilentOk(m, stopping) && CanMove(m, d, step)
    ensures SilentOk(MoveMemory(m, d, journaled, step), stopping)
  {
    SubsetSize(m.background - {m.tasks[d].chat}, m.background);
    SilentMoveWait(m, stopping, d, journaled, step);
  }

  lemma SilentEnd(m: Memory, stopping: bool, d: Task, released: bool)
    requires TasksOk(m) && SilentOk(m, stopping) && CanEnd(m, d)
    ensures SilentOk(EndMemory(m, d, released), stopping)
  {
    SubsetSize(m.background - {m.tasks[d].chat}, m.background);
  }

  lemma SilentAbort(m: Memory, stopping: bool, c: Chat)
    requires TasksOk(m) && SilentOk(m, stopping)
    ensures SilentOk(AbortMemory(m, c), stopping)
  {
    var m' := AbortMemory(m, c);
    forall b ensures At(m'.queues, b) == (if b == c then [] else At(m.queues, b)) {}
    assert forall b | b != c && Busy(m, b) && Busy(m, c) :: m.running[b] != m.running[c];
  }

  lemma SilentShutdown(m: Memory)
    requires TasksOk(m) && SilentOk(m, false)
    ensures SilentOk(ShutdownMemory(m), true)
  {
  }

  lemma SilentQueues(w: World, ev: Event)
    requires TaskInv(w) && SilentInv(w) && PlanLoud(w) && Enabled(w, ev) && Queues(ev)
    ensures SilentInv(Next(w, ev))
  {
    match ev
    case Arrive(c, threshold) => SilentArrive(w, c, OverThreshold(w.mem.context, c, threshold));
    case Accept(i, id) => SilentPut(w.mem, w.stage.Stopping?, w.waiting[i].chat, Turn(id, false, false));
    case Compact(c) => SilentPut(w.mem, w.stage.Stopping?, c, COMPACTION);
    case Tick(now, threshold, lead, order) =>
      SilentTick(w, now, threshold, lead, order);
      TaskTick(w, now, order);
    case Replay(c) => SilentReplay(w, c);
  }

  lemma SilentOwn(w: World, ev: Event)
    requires TaskInv(w) && SilentInv(w) && Enabled(w, ev) && OfTask(ev)
    ensures SilentInv(Next(w, ev))
  {
    match ev
    case Take(d) => SilentTake(w.mem, w.stage.Stopping?, d);
    case Move(d, step) => SilentMove(w.mem, w.stage.Stopping?, d, Journaled(w, w.mem.tasks[d].phase), step);
    case End(d, released) => SilentEnd(w.mem, w.stage.Stopping?, d, released);
  }

  lemma SilentRest(w: World, ev: Event)
    requires TaskInv(w) && SilentInv(w) && Enabled(w, ev) && !Queues(ev)
    ensures SilentInv(Next(w, ev))
  {
    if OfTask(ev) { SilentOwn(w, ev); } else { SilentOther(w, ev); }
  }

  lemma SilentOther(w: World, ev: Event)
    requires TaskInv(w) && SilentInv(w) && Enabled(w, ev) && !Queues(ev) && !OfTask(ev)
    ensures SilentInv(Next(w, ev))
  {
    match ev
    case Abort(c) => SilentAbort(w.mem, w.stage.Stopping?, c);
    case Shutdown => SilentShutdown(w.mem);
    case SessionChanges(_) =>
    case Crash =>
    case Boot(_, _, _) =>
    case Serve =>
  }

  lemma LoudStep(w: World, ev: Event)
    requires TaskInv(w) && SilentInv(w) && PlanLoud(w)
    ensures PlanLoud(Next(w, ev))
  {
    if Enabled(w, ev) {
      if ev.Replay? { SilentReplay(w, ev.chat); }
      else if ev.Tick? { SilencePlansNothing(w.(mem := Refreshed(w.mem, ev.now)), ev.order); }
      else { PlanOnlyBoots(w, ev); }
    }
  }

  /** Apart from a replay and a tick, only a boot or a crash touches the plan, and what
      `take` plans is no compaction. */
  lemma PlanOnlyBoots(w: World, ev: Event)
    requires PlanLoud(w) && Enabled(w, ev) && !ev.Replay? && !ev.Tick?
    ensures PlanLoud(Next(w, ev))
  {
    if ev.Boot? {
      var plan := Next(w, ev).plan;
      TakePlanIsRight(w.disk.journal, ev.stale);
      forall c, i | 0 <= i < |At(plan, c)| ensures !At(plan, c)[i].background {
        assert At(plan, c)[i] in At(plan, c);
      }
    } else if !ev.Crash? {
      PlanStays(w, ev);
    }
  }

  lemma PlanStays(w: World, ev: Event)
    requires Enabled(w, ev) && !ev.Replay? && !ev.Tick? && !ev.Boot? && !ev.Crash?
    ensures Next(w, ev).plan == w.plan
  {
    if Queues(ev) { QueuingPlansNothing(w, ev); } else { TasksPlanNothing(w, ev); }
  }

  lemma AcceptPlansNothing(w: World, i: nat, id: TurnId)
    requires i < |w.waiting|
    ensures AcceptStep(w, i, id).plan == w.plan
  {
  }

  lemma ArrivePlansNothing(w: World, c: Chat, due: bool)
    ensures ArriveStep(w, c, due).plan == w.plan
  {
  }

  lemma QueuingPlansNothing(w: World, ev: Event)
    requires Enabled(w, ev) && (ev.Arrive? || ev.Accept? || ev.Compact?)
    ensures Next(w, ev).plan == w.plan
  {
    match ev
    case Arrive(c, threshold) => ArrivePlansNothing(w, c, OverThreshold(w.mem.context, c, threshold));
    case Accept(i, id) => AcceptPlansNothing(w, i, id);
    case Compact(_) =>
  }

  lemma TasksPlanNothing(w: World, ev: Event)
    requires !Queues(ev) && !ev.Boot? && !ev.Crash?
    ensures Next(w, ev).plan == w.plan
  {
  }

  lemma SilencePlansNothing(w: World, order: seq<Chat>)
    ensures SilenceAll(w, order).plan == w.plan && SilenceAll(w, order).stage == w.stage
    decreases |order|
  {
    if |order| != 0 && |w.mem.background| < IDLE_COMPACT_MAX_RUNNING {
      SilencePlansNothing(Silence(w, order[0]), order[1..]);
    }
  }

  lemma {:induction false} SilentHolds(evs: seq<Event>)
    ensures SilentInv(Exec(evs)) && PlanLoud(Exec(evs))
  {
    if evs != [] {
      var past := evs[..|evs| - 1];
      SilentHolds(past);
      TaskHolds(past);
      var ev := evs[|evs| - 1];
      LoudStep(Exec(past), ev);
      if Enabled(Exec(past), ev) {
        if Queues(ev) { SilentQueues(Exec(past), ev); } else { SilentRest(Exec(past), ev); }
      }
    }
  }

  /** A silent compaction of this chat waits, or a task works on one. */
  ghost predicate SilentAt(m: Memory, c: Chat) {
    || (exists t :: t in QueueOf(m, c) && t.background)
    || (exists d :: d in m.tasks && m.tasks[d].chat == c && Working(m.tasks[d].phase)
                    && m.tasks[d].phase.turn.background)
  }

  /** At most IDLE_COMPACT_MAX_RUNNING chats have a silent compaction queued or running,
      at any step of any run. */
  lemma SilentCap(evs: seq<Event>, chats: set<Chat>)
    requires forall c | c in chats :: SilentAt(Exec(evs).mem, c)
    ensures |chats| <= IDLE_COMPACT_MAX_RUNNING
  {
    SilentHolds(evs);
    var m := Exec(evs).mem;
    forall c | c in chats ensures c in m.background {
      if t :| t in QueueOf(m, c) && t.background {
        var i :| 0 <= i < |At(m.queues, c)| && At(m.queues, c)[i] == t;
      }
    }
    SubsetSize(chats, m.background);
  }

  lemma TickIsClaimable(w: World, now: int, threshold: nat, lead: int, order: seq<Chat>)
    requires TasksOk(w.mem) && DueOrder(w.mem, now, threshold, lead, order)
    ensures TasksOk(Refreshed(w.mem, now)) && Claimable(Refreshed(w.mem, now), order)
  {
    OrderIsDistinct(w.mem, now, threshold, lead, order);
    var m := Refreshed(w.mem, now);
    forall i | 0 <= i < |order|
      ensures !Busy(m, order[i]) && |At(m.queues, order[i])| == 0 && order[i] !in m.background
    {
      assert DueForSilence(w.mem, order[i], now, threshold, lead);
    }
  }

  /** How many of the due chats one tick may serve. */
  function Served(w: World, now: int, order: seq<Chat>): int {
    Min(|order|, IDLE_COMPACT_MAX_RUNNING - |Refreshed(w.mem, now).background|)
  }

  lemma TickEffect(w: World, now: int, threshold: nat, lead: int, order: seq<Chat>, c: Chat)
    requires TaskInv(w) && SilentOk(w.mem, false) && DueOrder(w.mem, now, threshold, lead, order)
    ensures 0 <= Served(w, now, order) <= |order|
    ensures QueueOf(SilenceAll(w.(mem := Refreshed(w.mem, now)), order).mem, c)
      == if c in order[..Served(w, now, order)] then [SILENT] else QueueOf(w.mem, c)
  {
    SilentRefresh(w.mem, now);
    TickIsClaimable(w, now, threshold, lead, order);
    assert FlightOk(Refreshed(w.mem, now));
    SilenceEffect(w.(mem := Refreshed(w.mem, now)), order, c);
  }

  lemma DueMeansInWindow(m: Memory, now: int, threshold: nat, lead: int, order: seq<Chat>, k: int, c: Chat)
    requires DueOrder(m, now, threshold, lead, order) && 0 <= k <= |order| && c in order[..k]
    ensures QueueOf(m, c) == [] && !Busy(m, c) && c in m.idle
    ensures m.idle[c].ttl - lead <= now - m.idle[c].endedAt < m.idle[c].ttl
    ensures m.idle[c].tokens >= threshold
  {
    assert c in order;
    assert DueForSilence(m, c, now, threshold, lead);
  }

  /** A tick queues a silent compaction for exactly the first due chats, nearest expiry
      first, that the cap admits; due means idle, nothing queued, big enough, and
      inside the last `lead` seconds of the cache's life. */
  lemma SilentOnlyInWindow(evs: seq<Event>, now: int, threshold: nat, lead: int, order: seq<Chat>, c: Chat)
    requires Enabled(Exec(evs), Tick(now, threshold, lead, order))
    ensures var w := Exec(evs);
      var k := Served(w, now, order);
      && 0 <= k <= |order|
      && QueueOf(Next(w, Tick(now, threshold, lead, order)).mem, c)
         == (if c in order[..k] then [SILENT] else QueueOf(w.mem, c))
      && (c in order[..k] ==>
            && QueueOf(w.mem, c) == [] && !Busy(w.mem, c) && c in w.mem.idle
            && w.mem.idle[c].ttl - lead <= now - w.mem.idle[c].endedAt < w.mem.idle[c].ttl
            && w.mem.idle[c].tokens >= threshold)
  {
    var w := Exec(evs);
    SilentHolds(evs);
    TaskHolds(evs);
    TickEffect(w, now, threshold, lead, order, c);
    var k := Served(w, now, order);
    if c in order[..k] { DueMeansInWindow(w.mem, now, threshold, lead, order, k, c); }
  }
}
