/** What becomes of accepted turns: which event gave each its fate, and the ways in which
    a turn ends with no record although nothing said so to whoever asked. */
module TurnFates {
  import opened TurnEngine
  import opened TurnRuns
  import opened TurnSafety

  // --- a fate and a record exclude each other ---

  /** Only accepted turns have a fate, and only once their record is gone. */
  predicate FateOk(settled: map<TurnId, Fate>, accepted: map<TurnId, Chat>, journal: map<TurnId, Pending>) {
    forall id | id in settled :: id in accepted && id !in journal
  }

  ghost predicate FateInv(w: World) { FateOk(w.settled, w.accepted, w.disk.journal) }

  lemma FateFrame(w: World, w': World)
    requires FateInv(w) && w'.settled.Keys == w.settled.Keys && w.accepted.Keys <= w'.accepted.Keys
    requires forall id | id in w'.disk.journal && id in w.accepted :: id in w.disk.journal
    ensures FateInv(w')
  {
  }

  lemma SilenceSettlesNothing(w: World, order: seq<Chat>)
    ensures var w' := SilenceAll(w, order);
      && w'.settled == w.settled && w'.accepted == w.accepted && w'.disk == w.disk && w'.stage == w.stage
    decreases |order|
  {
    if |order| != 0 && |w.mem.background| < IDLE_COMPACT_MAX_RUNNING {
      SilenceSettlesNothing(Silence(w, order[0]), order[1..]);
    }
  }

  lemma FateTick(w: World, now: int, order: seq<Chat>)
    requires FateInv(w)
    ensures var w' := SilenceAll(w.(mem := Refreshed(w.mem, now)), order);
      FateInv(w') && w'.settled == w.settled && w'.stage == w.stage
  {
    SilenceSettlesNothing(w.(mem := Refreshed(w.mem, now)), order);
  }

  lemma FateAccept(w: World, i: nat, id: TurnId)
    requires FateInv(w) && i < |w.waiting| && id !in w.accepted
    ensures FateInv(AcceptStep(w, i, id))
  {
    FateFrame(w, AcceptStep(w, i, id));
  }

  lemma FateArrive(w: World, c: Chat, due: bool)
    requires FateInv(w)
    ensures FateInv(ArriveStep(w, c, due))
    ensures ArriveStep(w, c, due).settled == w.settled && ArriveStep(w, c, due).stage == w.stage
  {
  }

  lemma FateQueues(w: World, ev: Event)
    requires FateInv(w) && Enabled(w, ev) && Queues(ev)
    ensures FateInv(Next(w, ev)) && Next(w, ev).settled == w.settled && Next(w, ev).stage == w.stage
  {
    match ev
    case Tick(now, _, _, order) => FateTick(w, now, order);
    case Arrive(c, threshold) => FateArrive(w, c, OverThreshold(w.mem.context, c, threshold));
    case Accept(i, id) => FateAccept(w, i, id);
    case Compact(c) => FateFrame(w, Enqueued(w, c, COMPACTION));
    case Replay(c) => FateFrame(w, ReplayStep(w, c));
  }

  lemma FateSettles(settled: map<TurnId, Fate>, accepted: map<TurnId, Chat>, disk: Disk, p: Phase, step: Step)
    requires FateOk(settled, accepted, disk.journal) && (HasTurn(p) || step.Retire?)
    requires HasTurn(p) ==> p.turn.id == NO_ID || p.turn.id in accepted
    requires step.Dispatch? || step.Park? || Settles(p, step) || step.Told? ==> HasTurn(p)
    ensures FateOk(SettledAfter(settled, p, step), accepted, DiskAfter(disk, p, step).journal)
  {
    if Settles(p, step) {
      assert DiskAfter(disk, p, step).journal == disk.journal - {p.turn.id};
    } else {
      assert SettledAfter(settled, p, step).Keys == settled.Keys;
      assert DiskAfter(disk, p, step).journal.Keys <= disk.journal.Keys;
    }
  }

  /** What a step does to the disk and to the fates. */
  lemma MoveParts(w: World, d: Task, step: Step)
    requires CanMove(w.mem, d, step)
    ensures var p, w' := w.mem.tasks[d].phase, MoveStep(w, d, step);
      && w'.settled == SettledAfter(w.settled, p, step) && w'.disk == DiskAfter(w.disk, p, step)
      && w'.accepted == w.accepted && Next(w, Move(d, step)) == w'
  {
  }

  lemma FateMove(w: World, d: Task, step: Step)
    requires FateInv(w) && CanMove(w.mem, d, step)
    requires HasTurn(w.mem.tasks[d].phase) ==>
      w.mem.tasks[d].phase.turn.id == NO_ID || w.mem.tasks[d].phase.turn.id in w.accepted
    ensures FateInv(MoveStep(w, d, step))
  {
    MoveParts(w, d, step);
    FateSettles(w.settled, w.accepted, w.disk, w.mem.tasks[d].phase, step);
  }

  lemma AbortedWereAccepted(w: World, c: Chat, id: TurnId)
    requires AllInv(w) && id in AbortedIds(w.mem, c) && id != NO_ID
    ensures id in w.accepted
  {
    if Busy(w.mem, c) && c in w.mem.inFlight && id == w.mem.inFlight[c] {
      WorkIsAccepted(w, w.mem.running[c]);
    } else {
      var turn :| turn in QueueOf(w.mem, c) && turn.id == id;
      var i :| 0 <= i < |At(w.mem.queues, c)| && At(w.mem.queues, c)[i] == turn;
      assert At(w.mem.queues, c)[i].id in w.disk.journal;
    }
  }

  lemma FateAbort(w: World, c: Chat)
    requires AllInv(w) && FateInv(w)
    ensures FateInv(AbortStep(w, c))
  {
    forall id | id in AbortedIds(w.mem, c) && id != NO_ID ensures id in w.accepted {
      AbortedWereAccepted(w, c, id);
    }
  }

  lemma FateMoveStep(w: World, d: Task, step: Step)
    requires BookInv(w) && IdInv(w) && FateInv(w) && CanMove(w.mem, d, step)
    ensures FateInv(MoveStep(w, d, step))
  {
    if HasTurn(w.mem.tasks[d].phase) { WorkIsAccepted(w, d); }
    FateMove(w, d, step);
  }

  lemma FateTake(w: World, d: Task)
    requires FateInv(w) && d in w.mem.tasks
    ensures FateInv(TakeStep(w, d))
  {
  }

  lemma FateEnd(w: World, d: Task, released: bool)
    requires FateInv(w) && CanEnd(w.mem, d)
    ensures FateInv(EndStep(w, d, released))
  {
  }

  lemma FateOwn(w: World, ev: Event)
    requires BookInv(w) && IdInv(w) && FateInv(w) && Enabled(w, ev) && OfTask(ev)
    ensures FateInv(Next(w, ev))
  {
    match ev
    case Move(d, step) => FateMoveStep(w, d, step);
    case Take(d) => FateTake(w, d);
    case End(d, released) => FateEnd(w, d, released);
  }

  lemma FateBoot(w: World, stale: set<TurnId>, stuck: set<TurnId>, written: bool)
    requires FateInv(w)
    ensures FateInv(BootStep(w, stale, stuck, written))
  {
    FateFrame(w, BootStep(w, stale, stuck, written));
  }

  lemma FateOther(w: World, ev: Event)
    requires AllInv(w) && FateInv(w) && Enabled(w, ev) && !Queues(ev) && !OfTask(ev)
    ensures FateInv(Next(w, ev))
  {
    match ev
    case Abort(c) => FateAbort(w, c);
    case Boot(stale, stuck, written) => FateBoot(w, stale, stuck, written);
    case SessionChanges(_) => FateFrame(w, Next(w, ev));
    case Shutdown => FateFrame(w, ShutdownStep(w));
    case Crash => FateFrame(w, CrashStep(w));
    case Serve => FateFrame(w, w.(stage := Serving));
  }

  // --- who is cancelled with a record ---

  /** An abort takes the record of the turn it cancels in flight, so a turn in flight
      that is cancelled and still has its record was cancelled by a shutdown. */
  ghost predicate StopInv(w: World) {
    forall d | d in w.mem.tasks && w.mem.tasks[d].cancelled && InFlight(w.mem.tasks[d].phase)
      && w.mem.tasks[d].phase.turn.id in w.disk.journal :: w.stage.Stopping?
  }

  /** Every cancelled task in flight was one before, and its record is no newer. */
  lemma StopFrame(w: World, w': World)
    requires StopInv(w) && (w.stage.Stopping? ==> w'.stage.Stopping?)
    requires forall d | d in w'.mem.tasks && w'.mem.tasks[d].cancelled && InFlight(w'.mem.tasks[d].phase) ::
      d in w.mem.tasks && w'.mem.tasks[d] == w.mem.tasks[d]
    requires forall d | d in w.mem.tasks && HasTurn(w.mem.tasks[d].phase) ::
      w.mem.tasks[d].phase.turn.id in w'.disk.journal ==> w.mem.tasks[d].phase.turn.id in w.disk.journal
    ensures StopInv(w')
  {
  }

  lemma PutCancelsNothing(m: Memory, c: Chat, turn: Turn)
    requires TasksOk(m)
    ensures var m' := Put(m, c, turn);
      forall d | d in m'.tasks && m'.tasks[d].cancelled :: d in m.tasks && m'.tasks[d] == m.tasks[d]
  {
  }

  lemma SilenceCancelsNothing(w: World, order: seq<Chat>)
    requires TasksOk(w.mem) && FlightOk(w.mem)
    ensures var m' := SilenceAll(w, order).mem;
      forall d | d in m'.tasks && m'.tasks[d].cancelled :: d in w.mem.tasks && m'.tasks[d] == w.mem.tasks[d]
    decreases |order|
  {
    if |order| != 0 && |w.mem.background| < IDLE_COMPACT_MAX_RUNNING {
      TaskPut(Claimed(w, order[0]).mem, order[0], SILENT);
      PutCancelsNothing(Claimed(w, order[0]).mem, order[0], SILENT);
      SilenceCancelsNothing(Silence(w, order[0]), order[1..]);
    }
  }

  lemma StopAccept(w: World, i: nat, id: TurnId)
    requires AllInv(w) && StopInv(w) && i < |w.waiting| && id != NO_ID && id !in w.accepted
    ensures StopInv(AcceptStep(w, i, id))
  {
    PutCancelsNothing(w.mem, w.waiting[i].chat, Turn(id, false, false));
    forall d | d in w.mem.tasks && HasTurn(w.mem.tasks[d].phase) ensures w.mem.tasks[d].phase.turn.id != id {
      WorkIsAccepted(w, d);
    }
    StopFrame(w, AcceptStep(w, i, id));
  }

  lemma StopTick(w: World, now: int, order: seq<Chat>)
    requires AllInv(w) && StopInv(w)
    ensures StopInv(SilenceAll(w.(mem := Refreshed(w.mem, now)), order))
  {
    var w1 := w.(mem := Refreshed(w.mem, now));
    assert TasksOk(w1.mem) && FlightOk(w1.mem);
    SilenceSettlesNothing(w1, order);
    SilenceCancelsNothing(w1, order);
    StopFrame(w, SilenceAll(w1, order));
  }

  lemma StopArrive(w: World, c: Chat, due: bool)
    requires AllInv(w) && StopInv(w)
    ensures StopInv(ArriveStep(w, c, due))
  {
    PutCancelsNothing(Consumed(w, c).mem, c, COMPACTION);
    StopFrame(w, ArriveStep(w, c, due));
  }

  lemma StopReplay(w: World, c: Chat)
    requires AllInv(w) && StopInv(w) && |PlanOf(w, c)| != 0
    ensures StopInv(ReplayStep(w, c))
  {
    PutCancelsNothing(w.mem, c, w.plan[c][0]);
    StopFrame(w, ReplayStep(w, c));
  }

  lemma StopCompact(w: World, c: Chat)
    requires AllInv(w) && StopInv(w)
    ensures StopInv(Enqueued(w, c, COMPACTION))
  {
    PutCancelsNothing(w.mem, c, COMPACTION);
    StopFrame(w, Enqueued(w, c, COMPACTION));
  }

  lemma StopQueues(w: World, ev: Event)
    requires AllInv(w) && StopInv(w) && Enabled(w, ev) && Queues(ev)
    ensures StopInv(Next(w, ev))
  {
    match ev
    case Tick(now, _, _, order) => StopTick(w, now, order);
    case Arrive(c, threshold) => StopArrive(w, c, OverThreshold(w.mem.context, c, threshold));
    case Accept(i, id) => StopAccept(w, i, id);
    case Compact(c) => StopCompact(w, c);
    case Replay(c) => StopReplay(w, c);
  }

  lemma StopAbort(w: World, c: Chat)
    requires AllInv(w) && StopInv(w)
    ensures StopInv(AbortStep(w, c))
  {
    var w' := AbortStep(w, c);
    forall d | d in w'.mem.tasks && w'.mem.tasks[d].cancelled && InFlight(w'.mem.tasks[d].phase)
      && w'.mem.tasks[d].phase.turn.id in w'.disk.journal
      ensures w'.stage.Stopping?
    {
      assert w'.mem.tasks[d] == w.mem.tasks[d];
    }
  }

  lemma StopMove(w: World, d: Task, step: Step)
    requires StopInv(w) && CanMove(w.mem, d, step)
    ensures StopInv(MoveStep(w, d, step))
  {
    StopFrame(w, MoveStep(w, d, step));
  }

  lemma TakeCancelsNothing(m: Memory, d: Task)
    requires d in m.tasks
    ensures var m' := TakeMemory(m, d);
      forall e | e in m'.tasks && m'.tasks[e].cancelled :: e in m.tasks && m'.tasks[e] == m.tasks[e]
  {
  }

  lemma StopTake(w: World, d: Task)
    requires StopInv(w) && d in w.mem.tasks
    ensures StopInv(TakeStep(w, d))
  {
    var w' := TakeStep(w, d);
    assert w'.mem == TakeMemory(w.mem, d) && w'.disk == w.disk && w'.stage == w.stage;
    TakeCancelsNothing(w.mem, d);
    StopFrame(w, w');
  }

  lemma StopEnd(w: World, d: Task, released: bool)
    requires StopInv(w) && CanEnd(w.mem, d)
    ensures StopInv(EndStep(w, d, released))
  {
    StopFrame(w, EndStep(w, d, released));
  }

  lemma StopOwn(w: World, ev: Event)
    requires StopInv(w) && Enabled(w, ev) && OfTask(ev)
    ensures StopInv(Next(w, ev))
  {
    match ev
    case Take(d) => StopTake(w, d);
    case Move(d, step) => StopMove(w, d, step);
    case End(d, released) => StopEnd(w, d, released);
  }

  lemma StopOther(w: World, ev: Event)
    requires AllInv(w) && StopInv(w) && Enabled(w, ev) && !Queues(ev) && !OfTask(ev)
    ensures StopInv(Next(w, ev))
  {
    match ev
    case Abort(c) => StopAbort(w, c);
    case SessionChanges(_) => StopFrame(w, Next(w, ev));
    case Shutdown =>
    case Crash =>
    case Boot(stale, stuck, written) => StopFrame(w, BootStep(w, stale, stuck, written));
    case Serve => StopFrame(w, w.(stage := Serving));
  }

  lemma {:induction false} FatesHold(evs: seq<Event>)
    ensures AllInv(Exec(evs)) && FateInv(Exec(evs)) && StopInv(Exec(evs))
  {
    AllHold(evs);
    if evs != [] {
      var past, ev := evs[..|evs| - 1], evs[|evs| - 1];
      FatesHold(past);
      if Enabled(Exec(past), ev) {
        if Queues(ev) {
          FateQueues(Exec(past), ev);
          StopQueues(Exec(past), ev);
        } else {
          if OfTask(ev) {
            FateOwn(Exec(past), ev);
            StopOwn(Exec(past), ev);
          } else {
            FateOther(Exec(past), ev);
            StopOther(Exec(past), ev);
          }
        }
      }
    }
  }

  // --- which event gave which fate ---

  /** The event is a step of a task that works on this turn. */
  predicate WorksOn(w: World, ev: Event, id: TurnId) {
    && ev.Move? && CanMove(w.mem, ev.d, ev.step)
    && HasTurn(w.mem.tasks[ev.d].phase) && w.mem.tasks[ev.d].phase.turn.id == id
  }

  /** The event that gives a turn its fate. */
  predicate Gives(w: World, ev: Event, id: TurnId, fate: Fate) {
    match fate
    case Answered => WorksOn(w, ev, id) && ev.step.Finish?
    case Aborted => ev.Abort? && id in AbortedIds(w.mem, ev.chat)
    case Refused => WorksOn(w, ev, id) && ev.step.Told?
    case Untold => WorksOn(w, ev, id) && ev.step.Refuse?
    case Unreported =>
      && WorksOn(w, ev, id) && w.mem.tasks[ev.d].phase.Erring? && id in w.disk.journal
      && (ev.step.ReportRaises? || (ev.step.Unwind? && w.stage.Stopping?))
  }

  /** A fate stays, unless a notice that is sent in the end mends a lost one. */
  predicate Stays(before: Fate, after: Fate) { after == before || (Lost(before) && after == Refused) }

  lemma MoveSettles(w: World, d: Task, step: Step, id: TurnId)
    requires WorkOk(w) && StopInv(w) && NO_ID !in w.settled && CanMove(w.mem, d, step)
    requires id in MoveStep(w, d, step).settled
    ensures var fate := MoveStep(w, d, step).settled[id];
      if id in w.settled && fate == w.settled[id] then true
      else Gives(w, Move(d, step), id, fate) && (id in w.settled ==> Stays(w.settled[id], fate))
  {
    assert Recorded(w.mem.tasks[d], w.disk.journal, w.settled);
  }

  /** Only these events give a fate. */
  lemma OneFate(w: World, ev: Event, id: TurnId)
    requires AllInv(w) && FateInv(w) && StopInv(w)
    ensures var w' := Next(w, ev);
      && (id in w.settled ==> id in w'.settled && Stays(w.settled[id], w'.settled[id]))
      && (id in w'.settled && !(id in w.settled && w'.settled[id] == w.settled[id]) ==>
            Gives(w, ev, id, w'.settled[id]))
  {
    if Enabled(w, ev) {
      if Queues(ev) { FateQueues(w, ev); }
      else if ev.Move? {
        if id in Next(w, ev).settled { MoveSettles(w, ev.d, ev.step, id); }
      }
    }
  }

  ghost predicate EverGave(evs: seq<Event>, id: TurnId, fate: Fate) {
    exists i :: 0 <= i < |evs| && Gives(Exec(evs[..i]), evs[i], id, fate)
  }

  lemma GaveBefore(evs: seq<Event>, ev: Event, id: TurnId, fate: Fate)
    requires EverGave(evs, id, fate) || Gives(Exec(evs), ev, id, fate)
    ensures EverGave(evs + [ev], id, fate)
  {
    var more := evs + [ev];
    if Gives(Exec(evs), ev, id, fate) {
      assert more[..|evs|] == evs && more[|evs|] == ev;
    } else {
      var i :| 0 <= i < |evs| && Gives(Exec(evs[..i]), evs[i], id, fate);
      assert more[..i] == evs[..i] && more[i] == evs[i];
    }
  }

  /** Every fate was earned by an event of its kind, in every run. */
  lemma {:induction false} FatesAreEarned(evs: seq<Event>, id: TurnId)
    requires id in Exec(evs).settled
    ensures EverGave(evs, id, Exec(evs).settled[id])
  {
    if evs != [] {
      var past, ev := evs[..|evs| - 1], evs[|evs| - 1];
      FatesHold(past);
      OneFate(Exec(past), ev, id);
      if id in Exec(past).settled && Exec(past).settled[id] == Exec(evs).settled[id] { FatesAreEarned(past, id); }
      GaveBefore(past, ev, id, Exec(evs).settled[id]);
      assert past + [ev] == evs;
    }
  }

  // --- the main results ---

  /** Recorded, parked, or settled by an event of its kind. */
  ghost predicate AccountedFor(evs: seq<Event>, id: TurnId) {
    var w := Exec(evs);
    || id in w.disk.journal || id in w.disk.recovery
    || (id in w.settled && EverGave(evs, id, w.settled[id]))
  }

  lemma TurnIsAccountedFor(evs: seq<Event>, id: TurnId)
    requires id in Exec(evs).accepted
    ensures AccountedFor(evs, id)
  {
    AllHold(evs);
    if id in Exec(evs).settled { FatesAreEarned(evs, id); }
  }

  /** What waits has its record, and what is worked on has it unless the abort that
      cancels it took it. */
  ghost predicate WorkIsRecorded(w: World) {
    && (forall c, i | 0 <= i < |QueueOf(w.mem, c)| && QueueOf(w.mem, c)[i].id != NO_ID ::
          QueueOf(w.mem, c)[i].id in w.disk.journal)
    && (forall d | d in w.mem.tasks && HasTurn(w.mem.tasks[d].phase) && w.mem.tasks[d].phase.turn.id != NO_ID ::
          var p, id := w.mem.tasks[d].phase, w.mem.tasks[d].phase.turn.id;
          && (p.Starting? || p.Preparing? ==> id in w.disk.journal)
          && (InFlight(p) ==> id in w.disk.journal || (w.mem.tasks[d].cancelled && id in w.settled)))
  }

  lemma WorkHasItsRecords(evs: seq<Event>)
    ensures WorkIsRecorded(Exec(evs))
  {
    AllHold(evs);
  }

  lemma CrashSparesTheDisk(w: World)
    ensures Next(w, Crash).disk == w.disk
  {
  }

  lemma SettledHasNoRecord(evs: seq<Event>)
    ensures forall id | id in Exec(evs).settled :: id !in Exec(evs).disk.journal
  {
    FatesHold(evs);
  }

  /** At every step of every run, through any number of crashes: every accepted turn is
      recorded, parked, or settled; none is recorded and settled at once; and what waits,
      is set up or is in flight has its record. So a crash here, which leaves the disk as
      it is, loses none of those. Which of the settled are lost, `LosesExactly` says. */
  lemma CrashLosesNothing(evs: seq<Event>)
    ensures forall id | id in Exec(evs).accepted :: AccountedFor(evs, id)
    ensures forall id | id in Exec(evs).settled :: id !in Exec(evs).disk.journal
    ensures WorkIsRecorded(Exec(evs))
    ensures Next(Exec(evs), Crash).disk == Exec(evs).disk
  {
    SettledHasNoRecord(evs);
    WorkHasItsRecords(evs);
    CrashSparesTheDisk(Exec(evs));
    forall id | id in Exec(evs).accepted ensures AccountedFor(evs, id) { TurnIsAccountedFor(evs, id); }
  }

  /** The turn is settled, and lost. */
  predicate IsLost(settled: map<TurnId, Fate>, id: TurnId) { id in settled && Lost(settled[id]) }

  /** The event drops the record over an account or OS error, whose notice comes later,
      or its failure report is cut off, by an error or by a cancellation. */
  predicate Loses(w: World, ev: Event, id: TurnId) {
    && WorksOn(w, ev, id)
    && (|| ev.step.Refuse?
        || (w.mem.tasks[ev.d].phase.Erring? && (ev.step.ReportRaises? || ev.step.Unwind?)))
  }

  lemma StepLoses(settled: map<TurnId, Fate>, p: Phase, step: Step)
    requires HasTurn(p) && p.turn.id != NO_ID
    ensures p.turn.id !in settled && (step.Refuse? || (p.Erring? && (step.ReportRaises? || step.Unwind?))) ==>
      IsLost(SettledAfter(settled, p, step), p.turn.id)
    ensures step.Told? ==> !IsLost(SettledAfter(settled, p, step), p.turn.id)
  {
  }

  lemma MoveLoses(w: World, ev: Event, id: TurnId)
    requires id != NO_ID && WorksOn(w, ev, id)
    ensures id !in w.settled && Loses(w, ev, id) ==> IsLost(Next(w, ev).settled, id)
    ensures ev.step.Told? ==> !IsLost(Next(w, ev).settled, id)
  {
    MoveParts(w, ev.d, ev.step);
    StepLoses(w.settled, w.mem.tasks[ev.d].phase, ev.step);
  }

  lemma LosesStep(w: World, ev: Event, id: TurnId)
    requires AllInv(w) && FateInv(w) && StopInv(w) && id != NO_ID
    ensures id !in w.settled ==> (IsLost(Next(w, ev).settled, id) <==> Loses(w, ev, id))
    ensures IsLost(w.settled, id) ==> (!IsLost(Next(w, ev).settled, id) <==> WorksOn(w, ev, id) && ev.step.Told?)
  {
    OneFate(w, ev, id);
    if WorksOn(w, ev, id) { MoveLoses(w, ev, id); }
  }

  /** In every reachable world: an event loses a turn that was not settled if and only if
      it is one of these; and a lost one stays lost until the notice of an account or OS
      error of that turn is sent. */
  lemma LosesExactly(evs: seq<Event>, ev: Event, id: TurnId)
    requires id in Exec(evs).accepted
    ensures var w := Exec(evs);
      && (id !in w.settled ==> (IsLost(Next(w, ev).settled, id) <==> Loses(w, ev, id)))
      && (IsLost(w.settled, id) ==>
            (!IsLost(Next(w, ev).settled, id) <==> WorksOn(w, ev, id) && ev.step.Told?))
  {
    FatesHold(evs);
    LosesStep(Exec(evs), ev, id);
  }

  lemma ReportStep(disk: Disk, settled: map<TurnId, Fate>, p: Phase, cancelled: bool, step: Step)
    requires p.Erring? && StepEnabled(p, cancelled, step)
    requires p.turn.id in disk.journal && p.turn.id !in settled && p.turn.id != NO_ID
    ensures var id, after := p.turn.id, SettledAfter(settled, p, step);
      && id !in DiskAfter(disk, p, step).journal && id in after
      && (after[id] == Unreported <==> step.ReportRaises? || step.Unwind?)
      && (after[id] == Answered <==> step.Finish?)
  {
  }

  lemma RecordedIsNotSettled(evs: seq<Event>, id: TurnId)
    requires id in Exec(evs).disk.journal
    ensures id !in Exec(evs).settled && id != NO_ID
  {
    FatesHold(evs);
  }

  /** Whatever the task of a recorded turn does next while its failure is being reported
      drops the record; the turn is left unreported if and only if that step is the
      report's own error or a cancellation. */
  lemma ReportsEndTheRecord(evs: seq<Event>, d: Task, step: Step)
    requires var w := Exec(evs);
      && CanMove(w.mem, d, step) && w.mem.tasks[d].phase.Erring? && w.mem.tasks[d].phase.turn.id in w.disk.journal
    ensures var w, id := Exec(evs), Exec(evs).mem.tasks[d].phase.turn.id;
      var w' := Next(w, Move(d, step));
      && id !in w'.disk.journal && id in w'.settled
      && (w'.settled[id] == Unreported <==> step.ReportRaises? || step.Unwind?)
      && (w'.settled[id] == Answered <==> step.Finish?)
  {
    var w := Exec(evs);
    var t := w.mem.tasks[d];
    RecordedIsNotSettled(evs, t.phase.turn.id);
    ReportStep(w.disk, w.settled, t.phase, t.cancelled, step);
    MoveParts(w, d, step);
  }

  /** A cancellation reaches a task in one of two ways, and it drops the record of the
      task's turn exactly when the failure of that turn is being reported. That takes
      a shutdown: an abort would have dropped the record itself. */
  lemma CancellationDropsExactlyUnreported(evs: seq<Event>, d: Task, ev: Event)
    requires var w := Exec(evs);
      && d in w.mem.tasks && w.mem.tasks[d].cancelled && HasTurn(w.mem.tasks[d].phase)
      && w.mem.tasks[d].phase.turn.id in w.disk.journal
      && (ev == Move(d, Unwind) || ev == End(d, true) || ev == End(d, false)) && Enabled(w, ev)
    ensures var w := Exec(evs);
      var w', p, id := Next(w, ev), w.mem.tasks[d].phase, w.mem.tasks[d].phase.turn.id;
      && (id !in w'.disk.journal <==> p.Erring?)
      && (p.Erring? ==> w.stage.Stopping? && id in w'.settled && w'.settled[id] == Unreported)
      && (!p.Erring? ==> w'.disk == w.disk)
  {
    FatesHold(evs);
  }
}
