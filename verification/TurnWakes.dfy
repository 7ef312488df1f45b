/** Wake-ups in the turn engine: who looks at a waiting turn. */
module TurnWakes {
  import opened TurnEngine
  import opened TurnRuns
  import opened Options

  // --- a waiting turn has a drain that will look at it ---

  predicate Sound(t: Drain) { !t.cancelled && !t.phase.Unwinding? }

  /** Outside the chats stopped since their last drain was started, every task is sound
      and every non-empty queue has one. */
  ghost predicate WakeOk(m: Memory, cut: set<Chat>) {
    && (forall d | d in m.tasks && m.tasks[d].chat !in cut :: Sound(m.tasks[d]))
    && (forall c | |At(m.queues, c)| != 0 && c !in cut :: Busy(m, c))
  }

  ghost predicate WakeInv(w: World) { WakeOk(w.mem, w.cut) }

  lemma WakePut(m: Memory, cut: set<Chat>, c: Chat, turn: Turn)
    requires TasksOk(m) && WakeOk(m, cut)
    ensures WakeOk(Put(m, c, turn), if Busy(m, c) then cut else cut - {c})
  {
  }

  lemma WakeSilence(w: World, order: seq<Chat>)
    requires TasksOk(w.mem) && FlightOk(w.mem) && WakeInv(w)
    ensures WakeInv(SilenceAll(w, order))
    decreases |order|
  {
    if |order| != 0 && |w.mem.background| < IDLE_COMPACT_MAX_RUNNING {
      WakePut(Claimed(w, order[0]).mem, w.cut, order[0], SILENT);
      TaskPut(Claimed(w, order[0]).mem, order[0], SILENT);
      WakeSilence(Silence(w, order[0]), order[1..]);
    }
  }

  lemma WakeTick(w: World, now: int, order: seq<Chat>)
    requires TaskInv(w) && WakeInv(w)
    ensures WakeInv(SilenceAll(w.(mem := Refreshed(w.mem, now)), order))
  {
    var w1 := w.(mem := Refreshed(w.mem, now));
    assert TasksOk(w1.mem) && FlightOk(w1.mem);
    WakeSilence(w1, order);
  }

  lemma WakeArrive(w: World, c: Chat, due: bool)
    requires TasksOk(w.mem) && WakeInv(w)
    ensures WakeInv(ArriveStep(w, c, due))
  {
    WakePut(Consumed(w, c).mem, w.cut, c, COMPACTION);
  }

  lemma WakeReplay(w: World, c: Chat)
    requires TasksOk(w.mem) && WakeInv(w) && |PlanOf(w, c)| != 0
    ensures WakeInv(ReplayStep(w, c))
  {
    WakePut(w.mem, w.cut, c, w.plan[c][0]);
  }

  lemma WakeQueues(w: World, ev: Event)
    requires TaskInv(w) && WakeInv(w) && Enabled(w, ev) && Queues(ev)
    ensures WakeInv(Next(w, ev))
  {
    match ev
    case Arrive(c, threshold) => WakeArrive(w, c, OverThreshold(w.mem.context, c, threshold));
    case Accept(i, id) => WakePut(w.mem, w.cut, w.waiting[i].chat, Turn(id, false, false));
    case Compact(c) => WakePut(w.mem, w.cut, c, COMPACTION);
    case Tick(now, _, _, order) => WakeTick(w, now, order);
    case Replay(c) => WakeReplay(w, c);
  }

  lemma WakeTake(m: Memory, cut: set<Chat>, d: Task)
    requires TasksOk(m) && WakeOk(m, cut) && d in m.tasks && m.tasks[d].phase.Idle? && !m.tasks[d].cancelled
    ensures WakeOk(TakeMemory(m, d), cut)
  {
    var c := m.tasks[d].chat;
    var m' := TakeMemory(m, d);
    forall b | |At(m'.queues, b)| != 0 && b !in cut ensures Busy(m', b) {
      assert |At(m.queues, b)| != 0;
    }
  }

  lemma WakeMove(m: Memory, cut: set<Chat>, d: Task, journaled: bool, step: Step)
    requires TasksOk(m) && WakeOk(m, cut) && CanMove(m, d, step)
    ensures WakeOk(MoveMemory(m, d, journaled, step), cut)
  {
    assert step.Unwind? || step.CleanupRaises? ==> !Sound(m.tasks[d]);
  }

  lemma WakeEnd(m: Memory, cut: set<Chat>, d: Task, released: bool)
    requires TasksOk(m) && WakeOk(m, cut) && CanEnd(m, d)
    ensures WakeOk(EndMemory(m, d, released), cut)
  {
    assert !Sound(m.tasks[d]);
  }

  lemma WakeAbort(m: Memory, cut: set<Chat>, c: Chat)
    requires TasksOk(m) && WakeOk(m, cut)
    ensures WakeOk(AbortMemory(m, c), cut + {c})
  {
  }

  lemma WakeShutdown(m: Memory, cut: set<Chat>)
    requires TasksOk(m) && WakeOk(m, cut)
    ensures WakeOk(ShutdownMemory(m), cut + m.running.Keys)
  {
  }

  lemma WakeRest(w: World, ev: Event)
    requires TasksOk(w.mem) && WakeInv(w) && Enabled(w, ev) && !Queues(ev)
    ensures WakeInv(Next(w, ev))
  {
    match ev
    case Take(d) => WakeTake(w.mem, w.cut, d);
    case Move(d, step) => WakeMove(w.mem, w.cut, d, Journaled(w, w.mem.tasks[d].phase), step);
    case End(d, released) => WakeEnd(w.mem, w.cut, d, released);
    case Abort(c) => WakeAbort(w.mem, w.cut, c);
    case Shutdown => WakeShutdown(w.mem, w.cut);
    case SessionChanges(_) =>
    case Crash =>
    case Boot(_, _, _) =>
    case Serve =>
  }

  lemma {:induction false} WakeHolds(evs: seq<Event>)
    ensures WakeInv(Exec(evs))
  {
    if evs != [] {
      var past := evs[..|evs| - 1];
      WakeHolds(past);
      TaskHolds(past);
      var ev := evs[|evs| - 1];
      if Enabled(Exec(past), ev) {
        if Queues(ev) { WakeQueues(Exec(past), ev); } else { WakeRest(Exec(past), ev); }
      }
    }
  }

  /** The event stops what this chat is doing. */
  predicate Stops(w: World, ev: Event, c: Chat) {
    (ev.Abort? && ev.chat == c) || (ev.Shutdown? && c in w.mem.running)
  }

  /** The event starts a drain for this chat. */
  ghost predicate StartsDrain(w: World, ev: Event, c: Chat) { !Busy(w.mem, c) && Busy(Next(w, ev).mem, c) }

  lemma PutStartsOne(m: Memory, b: Chat, turn: Turn, c: Chat)
    requires TasksOk(m) && b != c
    ensures Busy(Put(m, b, turn), c) <==> Busy(m, c)
  {
  }

  lemma CutSilence(w: World, order: seq<Chat>, c: Chat)
    requires TasksOk(w.mem) && FlightOk(w.mem)
    ensures var w' := SilenceAll(w, order);
      c in w'.cut ==> c in w.cut && (!Busy(w.mem, c) ==> !Busy(w'.mem, c))
    decreases |order|
  {
    if |order| != 0 && |w.mem.background| < IDLE_COMPACT_MAX_RUNNING {
      TaskPut(Claimed(w, order[0]).mem, order[0], SILENT);
      if c != order[0] { PutStartsOne(Claimed(w, order[0]).mem, order[0], SILENT, c); }
      CutSilence(Silence(w, order[0]), order[1..], c);
    }
  }

  lemma CutEnqueued(w: World, b: Chat, turn: Turn, c: Chat)
    requires TasksOk(w.mem)
    ensures var w' := Enqueued(w, b, turn);
      c in w'.cut ==> c in w.cut && (!Busy(w.mem, c) ==> !Busy(w'.mem, c))
  {
    if b != c { PutStartsOne(w.mem, b, turn, c); }
  }

  lemma CutTick(w: World, now: int, order: seq<Chat>, c: Chat)
    requires TaskInv(w)
    ensures var w' := SilenceAll(w.(mem := Refreshed(w.mem, now)), order);
      c in w'.cut ==> c in w.cut && (!Busy(w.mem, c) ==> !Busy(w'.mem, c))
  {
    var w1 := w.(mem := Refreshed(w.mem, now));
    assert TasksOk(w1.mem) && FlightOk(w1.mem);
    CutSilence(w1, order, c);
  }

  lemma CutArrive(w: World, b: Chat, due: bool, c: Chat)
    requires TasksOk(w.mem)
    ensures var w' := ArriveStep(w, b, due);
      c in w'.cut ==> c in w.cut && (!Busy(w.mem, c) ==> !Busy(w'.mem, c))
  {
    CutEnqueued(Consumed(w, b), b, COMPACTION, c);
  }

  lemma CutQueues(w: World, ev: Event, c: Chat)
    requires TaskInv(w) && Enabled(w, ev) && Queues(ev) && c in Next(w, ev).cut
    ensures c in w.cut && !StartsDrain(w, ev, c)
  {
    match ev
    case Arrive(b, threshold) => CutArrive(w, b, OverThreshold(w.mem.context, b, threshold), c);
    case Accept(i, id) => CutEnqueued(w, w.waiting[i].chat, Turn(id, false, false), c);
    case Compact(b) => CutEnqueued(w, b, COMPACTION, c);
    case Tick(now, _, _, order) => CutTick(w, now, order, c);
    case Replay(b) => CutEnqueued(w, b, w.plan[b][0], c);
  }

  /** A chat stays cut only until a new drain is started for it. */
  lemma CutStep(w: World, ev: Event, c: Chat)
    requires TaskInv(w) && c in Next(w, ev).cut
    ensures Stops(w, ev, c) || (c in w.cut && !StartsDrain(w, ev, c))
  {
    if Enabled(w, ev) {
      if Queues(ev) { CutQueues(w, ev, c); }
      else {
        CutRest(w, ev, c);
        OthersStartNone(w, ev, c);
      }
    }
  }

  lemma CutRest(w: World, ev: Event, c: Chat)
    requires Enabled(w, ev) && !Queues(ev) && c in Next(w, ev).cut
    ensures Stops(w, ev, c) || c in w.cut
  {
    match ev
    case Take(d) => assert Next(w, ev) == TakeStep(w, d);
    case Move(d, step) => assert Next(w, ev) == MoveStep(w, d, step);
    case End(d, released) => assert Next(w, ev) == EndStep(w, d, released);
    case Abort(b) => assert Next(w, ev) == AbortStep(w, b);
    case Shutdown => assert Next(w, ev) == ShutdownStep(w);
    case Crash =>
    case SessionChanges(_) =>
    case Boot(_, _, _) =>
    case Serve =>
  }

  /** Only queuing a turn starts a drain. */
  lemma OthersStartNone(w: World, ev: Event, c: Chat)
    requires !Queues(ev)
    ensures !StartsDrain(w, ev, c)
  {
    if Enabled(w, ev) && OfTask(ev) {
      match ev
      case Take(d) => assert Next(w, ev).mem == TakeMemory(w.mem, d);
      case Move(d, step) =>
        var m := Next(w, ev).mem;
        assert m.running == w.mem.running && m.tasks.Keys == w.mem.tasks.Keys;
      case End(d, released) => assert Next(w, ev).mem == EndMemory(w.mem, d, released);
    }
  }

  /** This chat was stopped, and no new drain was started for it since. */
  ghost predicate StoppedSince(evs: seq<Event>, c: Chat) {
    exists i :: 0 <= i < |evs| && Stops(Exec(evs[..i]), evs[i], c)
      && forall j | i < j < |evs| :: !StartsDrain(Exec(evs[..j]), evs[j], c)
  }

  lemma StoppedLonger(evs: seq<Event>, ev: Event, c: Chat)
    requires Stops(Exec(evs), ev, c) || (StoppedSince(evs, c) && !StartsDrain(Exec(evs), ev, c))
    ensures StoppedSince(evs + [ev], c)
  {
    var more := evs + [ev];
    assert more[..|evs|] == evs && more[|evs|] == ev;
    if !Stops(Exec(evs), ev, c) {
      var i :| 0 <= i < |evs| && Stops(Exec(evs[..i]), evs[i], c)
        && forall j | i < j < |evs| :: !StartsDrain(Exec(evs[..j]), evs[j], c);
      assert more[..i] == evs[..i] && more[i] == evs[i];
      forall j | i < j < |more| ensures !StartsDrain(Exec(more[..j]), more[j], c) {
        if j < |evs| { assert more[..j] == evs[..j] && more[j] == evs[j]; }
      }
    }
  }

  lemma {:induction false} CutMeansStopped(evs: seq<Event>, c: Chat)
    requires c in Exec(evs).cut
    ensures StoppedSince(evs, c)
  {
    if evs != [] {
      var past, ev := evs[..|evs| - 1], evs[|evs| - 1];
      TaskHolds(past);
      CutStep(Exec(past), ev, c);
      if !Stops(Exec(past), ev, c) { CutMeansStopped(past, c); }
      StoppedLonger(past, ev, c);
      assert past + [ev] == evs;
    }
  }

  /** In every run a chat with a waiting turn has a live drain that nothing cancels,
      unless the chat was aborted or shut down and no new drain was started since. */
  lemma WaitingTurnsHaveADrain(evs: seq<Event>, c: Chat)
    requires QueueOf(Exec(evs).mem, c) != []
    ensures var m := Exec(evs).mem;
      || (Busy(m, c) && m.tasks[m.running[c]].chat == c && Sound(m.tasks[m.running[c]]))
      || StoppedSince(evs, c)
  {
    WakeHolds(evs);
    TaskHolds(evs);
    if c in Exec(evs).cut { CutMeansStopped(evs, c); }
  }

  /** How many steps at most separate a phase from the top of the drain loop. */
  function Distance(p: Phase): nat {
    match p
    case Idle => 0
    case Retiring => 1
    case Failing(_) => 2
    case Closing(_) => 3
    case Refusing(_) => 4
    case Breaking(_) => 5
    case Tidying(_) => 5
    case Erring(_) => 6
    case Replying(_) => 7
    case Compacting(_) => 8
    case Running(_) => 9
    case Preparing(_) => 10
    case Starting(_) => 11
    case Unwinding(_, _) => 12
  }

  /** Whatever a sound task does next, it stays sound and comes closer to the queue,
      and until it is there it can do something. */
  lemma DrainsComeBack(w: World, d: Task, step: Step)
    requires CanMove(w.mem, d, step) && Sound(w.mem.tasks[d])
    ensures var t := MoveStep(w, d, step).mem.tasks[d];
      Sound(t) && Distance(t.phase) < Distance(w.mem.tasks[d].phase)
  {
  }

  function AnyStep(p: Phase): Step
    requires !p.Idle?
  {
    match p
    case Retiring => Retire
    case Failing(_) => Park(true)
    case Closing(_) => Close
    case Refusing(_) => Told
    case Breaking(_) => Raise
    case Tidying(_) => Release
    case Erring(_) => Finish
    case Replying(_) => Finish
    case Compacting(_) => Respond(None, None)
    case Running(turn) => if turn.compact then BeginCompaction else Respond(None, None)
    case Preparing(_) => EnterFlight
    case Starting(_) => Dispatch
    case Unwinding(_, _) => CleanupRaises
  }

  lemma {:induction false} DrainReachesTheQueue(w: World, d: Task) returns (w': World, steps: nat)
    requires d in w.mem.tasks && Sound(w.mem.tasks[d])
    ensures d in w'.mem.tasks && w'.mem.tasks[d] == Drain(w.mem.tasks[d].chat, Idle, false)
    ensures w'.mem.queues == w.mem.queues && steps <= Distance(w.mem.tasks[d].phase)
    decreases Distance(w.mem.tasks[d].phase)
  {
    var p := w.mem.tasks[d].phase;
    if p.Idle? { return w, 0; }
    DrainsComeBack(w, d, AnyStep(p));
    var next, n := DrainReachesTheQueue(MoveStep(w, d, AnyStep(p)), d);
    return next, n + 1;
  }
}
