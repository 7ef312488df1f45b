/** What the records say is what happened: the chat a turn was accepted for, whether it was
    ever dispatched, and how often a start handed it over. */
module TurnReplays {
  import opened Options
  import opened TurnEngine
  import opened TurnStart
  import opened TurnRuns
  import opened TurnSafety

  /** A start plans this turn for replay. */
  ghost predicate HandsOver(w: World, ev: Event, id: TurnId) {
    ev.Boot? && Enabled(w, ev) && exists c :: Turn(id, false, false) in PlanOf(Next(w, ev), c)
  }

  /** A task with this turn gets as far as its dispatch. */
  predicate Dispatches(w: World, ev: Event, id: TurnId) {
    ev.Move? && ev.step.Dispatch? && CanMove(w.mem, ev.d, ev.step) && w.mem.tasks[ev.d].phase.turn.id == id
  }

  ghost function Replays(evs: seq<Event>, id: TurnId): nat {
    if evs == [] then 0
    else
      var past, ev := evs[..|evs| - 1], evs[|evs| - 1];
      Replays(past, id) + if HandsOver(Exec(past), ev, id) then 1 else 0
  }

  ghost predicate Dispatched(evs: seq<Event>, id: TurnId) {
    evs != [] &&
    var past, ev := evs[..|evs| - 1], evs[|evs| - 1];
    Dispatched(past, id) || Dispatches(Exec(past), ev, id)
  }

  /** What one event does to the record of one turn. */
  ghost predicate RecordStep(w: World, ev: Event, w': World, id: TurnId) {
    && (forall i | i in w.accepted :: i in w'.accepted && w'.accepted[i] == w.accepted[i])
    && (id in w'.disk.journal && id !in w.disk.journal ==>
          && ev.Accept? && ev.id == id && id !in w.accepted && id in w'.accepted
          && w'.disk.journal[id] == Pending(w'.accepted[id], false, 0))
    && (id in w'.disk.journal && id in w.disk.journal ==>
          var before, after := w.disk.journal[id], w'.disk.journal[id];
          && after.chat == before.chat
          && (after.dispatched <==> before.dispatched || Dispatches(w, ev, id))
          && after.replays == before.replays + (if HandsOver(w, ev, id) then 1 else 0))
    && (id in w'.disk.recovery ==>
          || (id in w.disk.recovery && w'.disk.recovery[id] == w.disk.recovery[id])
          || (id in w.disk.journal && w'.disk.recovery[id] == w.disk.journal[id]))
    && (id !in w.disk.journal ==> !HandsOver(w, ev, id))
    && (id in w.disk.journal && HandsOver(w, ev, id) ==> w.disk.journal[id].replays < 2)
  }

  lemma BootRecords(w: World, ev: Event, id: TurnId)
    requires Enabled(w, ev) && ev.Boot?
    ensures RecordStep(w, ev, Next(w, ev), id)
  {
    TakePlanIsRight(w.disk.journal, ev.stale);
    var w' := Next(w, ev);
    if id in w.disk.journal && Replayable(w.disk.journal, ev.stale, id) && ev.written {
      assert Turn(id, false, false) in PlanOf(w', w.disk.journal[id].chat);
    }
  }

  lemma SilenceRecords(w: World, order: seq<Chat>)
    ensures SilenceAll(w, order).disk == w.disk && SilenceAll(w, order).accepted == w.accepted
    decreases |order|
  {
    if |order| != 0 && |w.mem.background| < IDLE_COMPACT_MAX_RUNNING {
      SilenceRecords(Silence(w, order[0]), order[1..]);
    }
  }

  lemma AcceptRecords(w: World, i: nat, other: TurnId, id: TurnId)
    requires Enabled(w, Accept(i, other)) && (id in w.disk.journal ==> id in w.accepted)
    ensures RecordStep(w, Accept(i, other), AcceptStep(w, i, other), id)
  {
  }

  lemma ArriveKeepsRecords(w: World, c: Chat, due: bool)
    ensures ArriveStep(w, c, due).disk == w.disk && ArriveStep(w, c, due).accepted == w.accepted
  {
  }

  /** Queuing anything else leaves the records. */
  lemma QueuingKeepsRecords(w: World, ev: Event)
    requires Enabled(w, ev) && Queues(ev) && !ev.Accept?
    ensures Next(w, ev).disk == w.disk && Next(w, ev).accepted == w.accepted
  {
    if ev.Tick? { SilenceRecords(w.(mem := Refreshed(w.mem, ev.now)), ev.order); }
    else if ev.Arrive? { ArriveKeepsRecords(w, ev.chat, OverThreshold(w.mem.context, ev.chat, ev.threshold)); }
  }

  lemma QueuingRecords(w: World, ev: Event, id: TurnId)
    requires Enabled(w, ev) && Queues(ev) && (id in w.disk.journal ==> id in w.accepted)
    ensures RecordStep(w, ev, Next(w, ev), id)
  {
    if ev.Accept? { AcceptRecords(w, ev.index, ev.id, id); } else { QueuingKeepsRecords(w, ev); }
  }

  lemma MoveRecords(w: World, d: Task, step: Step, id: TurnId)
    requires CanMove(w.mem, d, step)
    ensures RecordStep(w, Move(d, step), MoveStep(w, d, step), id)
  {
  }

  lemma RestRecords(w: World, ev: Event, id: TurnId)
    requires Enabled(w, ev) && !Queues(ev) && !ev.Move? && !ev.Boot?
    ensures RecordStep(w, ev, Next(w, ev), id)
  {
  }

  lemma Records(w: World, ev: Event, id: TurnId)
    requires Enabled(w, ev) && (id in w.disk.journal ==> id in w.accepted)
    ensures RecordStep(w, ev, Next(w, ev), id)
  {
    if Queues(ev) { QueuingRecords(w, ev, id); }
    else if ev.Move? { MoveRecords(w, ev.d, ev.step, id); }
    else if ev.Boot? { BootRecords(w, ev, id); }
    else { RestRecords(w, ev, id); }
  }

  ghost predicate RecordOk(w: World, evs: seq<Event>, id: TurnId) {
    && Replays(evs, id) <= 2
    && (id in w.disk.journal ==>
          && id in w.accepted && w.disk.journal[id].chat == w.accepted[id]
          && w.disk.journal[id].replays == Replays(evs, id)
          && (w.disk.journal[id].dispatched <==> Dispatched(evs, id)))
    && (id in w.disk.recovery ==>
          && id in w.accepted && w.disk.recovery[id].chat == w.accepted[id]
          && w.disk.recovery[id].replays <= Replays(evs, id))
    && (id !in w.accepted ==> Replays(evs, id) == 0 && !Dispatched(evs, id))
  }

  lemma {:induction false} RecordsHold(evs: seq<Event>, id: TurnId)
    ensures id != NO_ID ==> RecordOk(Exec(evs), evs, id)
  {
    if evs != [] && id != NO_ID {
      var past, ev := evs[..|evs| - 1], evs[|evs| - 1];
      RecordsHold(past, id);
      if Enabled(Exec(past), ev) {
        Records(Exec(past), ev, id);
        if Dispatches(Exec(past), ev, id) {
          AllHold(past);
          WorkIsAccepted(Exec(past), ev.d);
        }
      }
    }
  }

  /** In every run, through any number of crashes: a record, pending or parked, is that of
      the chat its turn was accepted for; a pending one says it was dispatched exactly when
      a task got that far with the turn; it counts exactly how often a start handed the turn
      over; and none is handed over more than twice. */
  lemma RecordsTellTheHistory(evs: seq<Event>, id: TurnId)
    requires id != NO_ID
    ensures var w := Exec(evs);
      && Replays(evs, id) <= 2
      && (id in w.disk.journal ==>
            && id in w.accepted && w.disk.journal[id].chat == w.accepted[id]
            && w.disk.journal[id].replays == Replays(evs, id)
            && (w.disk.journal[id].dispatched <==> Dispatched(evs, id)))
      && (id in w.disk.recovery ==> id in w.accepted && w.disk.recovery[id].chat == w.accepted[id])
  {
    RecordsHold(evs, id);
  }

  // --- an account or OS error refuses a turn once ---

  /** The turn this task took last was refused. */
  ghost predicate RefusedSince(evs: seq<Event>, d: Task) {
    evs != [] &&
    var past, ev := evs[..|evs| - 1], evs[|evs| - 1];
    if ev == Take(d) && Enabled(Exec(past), ev) then false
    else RefusedSince(past, d) || (ev == Move(d, Refuse) && Enabled(Exec(past), ev))
  }

  /** A turn being worked on was not refused; one being told was; and one that unwinds is
      inside the arm that refuses unless it was refused already. */
  predicate PhaseGuard(p: Phase, refused: bool) {
    match p
    case Unwinding(_, guarded) => guarded <==> !refused
    case Refusing(_) => refused
    case Idle => true
    case Retiring => true
    case Closing(_) => true
    case Failing(_) => true
    case _ => !refused
  }

  predicate GuardOk(m: Memory, d: Task, refused: bool) { d in m.tasks ==> PhaseGuard(m.tasks[d].phase, refused) }

  /** Another event leaves a task's phase, ends the task, or finds a new one idle. */
  lemma PhaseElsewhere(w: World, ev: Event, d: Task)
    requires Enabled(w, ev) && !Queues(ev) && !(OfTask(ev) && ev.d == d)
    ensures var m := Next(w, ev).mem; d in m.tasks ==> d in w.mem.tasks && m.tasks[d].phase == w.mem.tasks[d].phase
  {
    match ev
    case Take(e) => assert Next(w, ev) == TakeStep(w, e);
    case Move(e, step) => assert Next(w, ev) == MoveStep(w, e, step);
    case End(e, released) => assert Next(w, ev) == EndStep(w, e, released);
    case Abort(b) => assert Next(w, ev) == AbortStep(w, b);
    case Shutdown => assert Next(w, ev) == ShutdownStep(w);
    case Crash =>
    case SessionChanges(_) =>
    case Boot(_, _, _) =>
    case Serve =>
  }

  lemma PhaseSilence(w: World, order: seq<Chat>, d: Task)
    ensures var m := SilenceAll(w, order).mem;
      d in m.tasks ==> m.tasks[d].phase.Idle? || (d in w.mem.tasks && m.tasks[d] == w.mem.tasks[d])
    decreases |order|
  {
    if |order| != 0 && |w.mem.background| < IDLE_COMPACT_MAX_RUNNING {
      PhaseSilence(Silence(w, order[0]), order[1..], d);
    }
  }

  lemma PhasePut(m: Memory, c: Chat, turn: Turn, d: Task)
    ensures var m' := Put(m, c, turn);
      d in m'.tasks ==> m'.tasks[d].phase.Idle? || (d in m.tasks && m'.tasks[d] == m.tasks[d])
  {
  }

  lemma PhaseQueues(w: World, ev: Event, d: Task)
    requires Enabled(w, ev) && Queues(ev)
    ensures var m := Next(w, ev).mem;
      d in m.tasks ==> m.tasks[d].phase.Idle? || (d in w.mem.tasks && m.tasks[d] == w.mem.tasks[d])
  {
    match ev
    case Tick(now, _, _, order) => PhaseSilence(w.(mem := Refreshed(w.mem, now)), order, d);
    case Arrive(b, threshold) => PhaseArrive(w, b, OverThreshold(w.mem.context, b, threshold), d);
    case Accept(i, id) =>
      PhasePut(w.mem, w.waiting[i].chat, Turn(id, false, false), d);
      assert Next(w, ev) == AcceptStep(w, i, id);
    case Compact(b) => PhasePut(w.mem, b, COMPACTION, d);
    case Replay(b) => PhasePut(w.mem, b, w.plan[b][0], d);
  }

  lemma PhaseArrive(w: World, c: Chat, due: bool, d: Task)
    ensures var m := ArriveStep(w, c, due).mem;
      d in m.tasks ==> m.tasks[d].phase.Idle? || (d in w.mem.tasks && m.tasks[d] == w.mem.tasks[d])
  {
    PhasePut(Consumed(w, c).mem, c, COMPACTION, d);
  }

  lemma GuardAfter(p: Phase, cancelled: bool, journaled: bool, step: Step, refused: bool)
    requires StepEnabled(p, cancelled, step) && PhaseGuard(p, refused)
    ensures PhaseGuard(After(p, journaled, step), refused || step.Refuse?)
  {
  }

  lemma GuardMove(w: World, d: Task, step: Step, refused: bool)
    requires CanMove(w.mem, d, step) && GuardOk(w.mem, d, refused)
    ensures GuardOk(MoveStep(w, d, step).mem, d, refused || step.Refuse?)
  {
    var p := w.mem.tasks[d].phase;
    GuardAfter(p, w.mem.tasks[d].cancelled, Journaled(w, p), step, refused);
    assert MoveStep(w, d, step).mem.tasks[d].phase == After(p, Journaled(w, p), step);
  }

  lemma GuardOwn(w: World, ev: Event, d: Task, refused: bool)
    requires Enabled(w, ev) && OfTask(ev) && ev.d == d && GuardOk(w.mem, d, refused)
    ensures GuardOk(Next(w, ev).mem, d, if ev.Take? then false else refused || ev == Move(d, Refuse))
  {
    match ev
    case Take(_) => GuardTake(w, d);
    case Move(_, step) => GuardMove(w, d, step, refused);
    case End(_, released) => assert d !in EndStep(w, d, released).mem.tasks;
  }

  lemma GuardTake(w: World, d: Task)
    requires d in w.mem.tasks
    ensures GuardOk(TakeStep(w, d).mem, d, false)
  {
  }

  lemma {:induction false} GuardHolds(evs: seq<Event>, d: Task)
    ensures GuardOk(Exec(evs).mem, d, RefusedSince(evs, d))
  {
    if evs != [] {
      var past, ev := evs[..|evs| - 1], evs[|evs| - 1];
      var w := Exec(past);
      GuardHolds(past, d);
      if Enabled(w, ev) {
        if OfTask(ev) && ev.d == d { GuardOwn(w, ev, d, RefusedSince(past, d)); }
        else if Queues(ev) { PhaseQueues(w, ev, d); }
        else { PhaseElsewhere(w, ev, d); }
      }
    }
  }

  /** In every run an account or OS error is caught, and drops the record, at most once per
      turn: not while the notice of it is being sent, nor in a cleanup that began there. */
  lemma RefusedOnce(evs: seq<Event>, d: Task)
    ensures var m := Exec(evs).mem;
      && (CanMove(m, d, Refuse) ==> !RefusedSince(evs, d))
      && (d in m.tasks && m.tasks[d].phase.Unwinding? && !m.tasks[d].cancelled && !RefusedSince(evs, d) ==>
            CanMove(m, d, Refuse))
  {
    GuardHolds(evs, d);
  }
}
