/** Why "no abort and no account failure" is not enough to keep the automatic
    compactions of a chat apart. */
module TurnRepeat {
  import opened Options
  import opened TurnEngine
  import opened TurnRuns
  import opened TurnSafety
  import opened TurnApart

  /** No abort, no shutdown, no account or OS error. */
  predicate NoStopNoRefusal(ev: Event) {
    !ev.Abort? && !ev.Shutdown? && !(ev.Move? && ev.step.Refuse?)
  }

  ghost predicate At1(evs: seq<Event>, m: Memory, notes: seq<Note>) {
    && Exec(evs).mem == m && Exec(evs).notes == notes && Exec(evs).stage.Serving?
    && Exec(evs).disk.recovery == map[]
    && forall i | 0 <= i < |evs| :: NoStopNoRefusal(evs[i])
  }

  lemma Append(evs: seq<Event>, ev: Event)
    ensures Exec(evs + [ev]) == Next(Exec(evs), ev)
  {
    assert (evs + [ev])[..|evs|] == evs;
  }

  /** The notes of one answered turn. */
  const FIRST := [Dispatched(1), ReadingTaken(1)]

  const BIG := Usage(90, 100)
  const READ := IdleReading(0, 90, 3600)

  /** The tables with one drain task for chat 1 at a given phase. */
  function One(q: seq<Turn>, d: Task, p: Phase, flight: map<Chat, TurnId>,
               context: map<Chat, Usage>, idle: map<Chat, IdleReading>): Memory {
    Memory(map[1 := q], map[1 := d], map[d := Drain(1, p, false)], d + 1, flight, context, idle, {})
  }

  const DONE := Memory(map[1 := []], map[], map[], 1, map[], map[1 := BIG], map[1 := READ], {})
  const QUIET := Memory(map[1 := []], map[], map[], 2, map[], map[], map[1 := READ], {})

  lemma OneMoved(q: seq<Turn>, d: Task, p: Phase, flight: map<Chat, TurnId>, context: map<Chat, Usage>,
                 idle: map<Chat, IdleReading>, journaled: bool, step: Step)
    requires StepEnabled(p, false, step) && (HasTurn(p) ==> !p.turn.background)
    ensures CanMove(One(q, d, p, flight, context, idle), d, step)
    ensures MoveMemory(One(q, d, p, flight, context, idle), d, journaled, step)
      == One(q, d, After(p, journaled, step), FlightAfter(flight, 1, p, step),
             ContextAfter(context, 1, p, step), IdleAfter(idle, 1, p, step))
  {
    assert map[d := Drain(1, p, false)][d := Drain(1, After(p, journaled, step), false)]
      == map[d := Drain(1, After(p, journaled, step), false)];
  }

  lemma NextMove(w: World, d: Task, step: Step)
    requires CanMove(w.mem, d, step)
    ensures Next(w, Move(d, step)) == MoveStep(w, d, step)
    ensures MoveStep(w, d, step).stage == w.stage
  {
  }

  lemma MoveParts(w: World, d: Task, step: Step)
    requires CanMove(w.mem, d, step)
    ensures var c, p := w.mem.tasks[d].chat, w.mem.tasks[d].phase;
      && MoveStep(w, d, step).mem == MoveMemory(w.mem, d, Journaled(w, p), step)
      && MoveStep(w, d, step).notes == Noted(w.notes, c, p, step)
  {
  }

  /** A step of the one task, with the tables it is known to lead to. */
  lemma MoveOne(evs: seq<Event>, q: seq<Turn>, d: Task, p: Phase, flight: map<Chat, TurnId>,
                context: map<Chat, Usage>, idle: map<Chat, IdleReading>, notes: seq<Note>, step: Step, to: Memory)
    requires At1(evs, One(q, d, p, flight, context, idle), notes)
    requires StepEnabled(p, false, step) && !step.Refuse? && !step.Park? && (HasTurn(p) ==> !p.turn.background)
    requires forall j :: to == One(q, d, After(p, j, step), FlightAfter(flight, 1, p, step),
                                   ContextAfter(context, 1, p, step), IdleAfter(idle, 1, p, step))
    ensures At1(evs + [Move(d, step)], to, Noted(notes, 1, p, step))
  {
    var w := Exec(evs);
    Append(evs, Move(d, step));
    OneMoved(q, d, p, flight, context, idle, Journaled(w, p), step);
    NextMove(w, d, step);
    MoveParts(w, d, step);
  }

  /** An empty queue ends the task. */
  lemma TakeNone(evs: seq<Event>, d: Task, context: map<Chat, Usage>, idle: map<Chat, IdleReading>, notes: seq<Note>)
    requires At1(evs, One([], d, Idle, map[], context, idle), notes)
    ensures At1(evs + [Take(d)], Memory(map[1 := []], map[], map[], d + 1, map[], context, idle, {}), notes)
  {
    var m := One([], d, Idle, map[], context, idle);
    Append(evs, Take(d));
    TakeParts(Exec(evs), d);
    assert m.tasks - {d} == map[] && m.running - {1} == map[];
    assert QueueOf(m, 1) == [];
  }

  lemma OneTaken(d: Task, t: Turn, idle: map<Chat, IdleReading>)
    ensures TakeMemory(One([t], d, Idle, map[], map[], idle), d) == One([], d, Starting(t), map[], map[], idle)
  {
    assert [t][1..] == [];
    assert map[1 := [t]][1 := []] == map[1 := []];
    assert map[d := Drain(1, Idle, false)][d := Drain(1, Starting(t), false)] == map[d := Drain(1, Starting(t), false)];
  }

  lemma TakeParts(w: World, d: Task)
    requires d in w.mem.tasks && w.mem.tasks[d].phase.Idle? && !w.mem.tasks[d].cancelled
    ensures var w' := Next(w, Take(d));
      w'.mem == TakeMemory(w.mem, d) && w'.notes == w.notes && w'.stage == w.stage && w'.disk == w.disk
  {
  }

  lemma TakeFirst(evs: seq<Event>, d: Task, t: Turn, idle: map<Chat, IdleReading>, notes: seq<Note>)
    requires At1(evs, One([t], d, Idle, map[], map[], idle), notes)
    ensures At1(evs + [Take(d)], One([], d, Starting(t), map[], map[], idle), notes)
  {
    var m := One([t], d, Idle, map[], map[], idle);
    Append(evs, Take(d));
    OneTaken(d, t, idle);
    TakeParts(Exec(evs), d);
  }

  const BOOT := Boot({}, {}, true)

  /** A process that has booted on an empty journal. */
  ghost predicate Booted(w: World) {
    && w.mem == NOTHING && w.notes == [] && w.waiting == [] && w.accepted == map[]
    && w.disk.recovery == map[] && forall c :: PlanOf(w, c) == []
  }

  lemma BootsEmpty()
    ensures Booted(Exec([BOOT])) && Exec([BOOT]).stage == Resuming
  {
    assert [BOOT][..0] == [];
    assert Exec([]) == Init();
    assert Exec([BOOT]) == BootStep(Init(), {}, {}, true);
    assert ReplayIds(map[], {}) == {};
    assert TakePlan(map[], {}) == map[];
  }

  lemma ServesEmpty(w: World)
    requires Booted(w) && w.stage == Resuming
    ensures Booted(Next(w, Serve)) && Next(w, Serve).stage == Serving
  {
    assert Enabled(w, Serve);
    forall c ensures PlanOf(Next(w, Serve), c) == [] { assert PlanOf(w, c) == []; }
  }

  lemma Started() returns (evs: seq<Event>)
    ensures At1(evs, NOTHING, []) && Exec(evs).waiting == [] && Exec(evs).accepted == map[]
  {
    BootsEmpty();
    ServesEmpty(Exec([BOOT]));
    Append([BOOT], Serve);
    evs := [BOOT] + [Serve];
  }

  lemma PutFirst(m: Memory, t: Turn, idle: map<Chat, IdleReading>)
    requires QueueOf(m, 1) == [] && m.queues.Keys <= {1} && m.running == map[] && m.tasks == map[]
    requires m == Memory(m.queues, map[], map[], m.spawned, map[], map[], idle, {})
    ensures Put(m, 1, t) == One([t], m.spawned, Idle, map[], map[], idle)
  {
    var m' := Put(m, 1, t);
    assert [] + [t] == [t];
    assert m'.queues == map[1 := [t]];
    assert m'.running == map[1 := m.spawned];
    assert m'.tasks == map[m.spawned := Drain(1, Idle, false)];
  }

  lemma FirstMessage(start: seq<Event>) returns (evs: seq<Event>)
    requires At1(start, NOTHING, []) && Exec(start).waiting == [] && Exec(start).accepted == map[]
    ensures At1(evs, One([Turn(7, false, false)], 0, Idle, map[], map[], map[]), [])
  {
    Append(start, Arrive(1, 0));
    evs := start + [Arrive(1, 0)];
    var w := Exec(evs);
    assert w.waiting == [Waiting(1, None)] && w.accepted == map[] && w.mem == NOTHING;
    Append(evs, Accept(0, 7));
    evs := evs + [Accept(0, 7)];
    PutFirst(NOTHING, Turn(7, false, false), map[]);
  }

  /** Boot, one message, its turn answers with a large context. */
  lemma FirstTurn() returns (evs: seq<Event>)
    ensures At1(evs, DONE, FIRST)
  {
    var t := Turn(7, false, false);
    evs := Started();
    evs := FirstMessage(evs);
    TakeFirst(evs, 0, t, map[], []);
    evs := evs + [Take(0)];
    evs := Answer(evs, t);
    evs := WindDown(evs, t);
  }

  lemma Answer(start: seq<Event>, t: Turn) returns (evs: seq<Event>)
    requires At1(start, One([], 0, Starting(t), map[], map[], map[]), []) && t == Turn(7, false, false)
    ensures At1(evs, One([], 0, Replying(t), map[1 := 7], map[1 := BIG], map[1 := READ]), FIRST)
  {
    var none: map<Chat, IdleReading> := map[];
    assert none - {1} == none;
    MoveOne(start, [], 0, Starting(t), map[], map[], map[], [], Dispatch,
            One([], 0, Preparing(t), map[], map[], map[]));
    evs := start + [Move(0, Dispatch)];
    var n := [Dispatched(1)];
    assert [] + n == n;
    MoveOne(evs, [], 0, Preparing(t), map[], map[], map[], n, EnterFlight,
            One([], 0, Running(t), map[1 := 7], map[], map[]));
    evs := evs + [Move(0, EnterFlight)];
    MoveOne(evs, [], 0, Running(t), map[1 := 7], map[], map[], n, Respond(Some(BIG), Some(READ)),
            One([], 0, Replying(t), map[1 := 7], map[1 := BIG], map[1 := READ]));
    evs := evs + [Move(0, Respond(Some(BIG), Some(READ)))];
  }

  lemma WindDown(start: seq<Event>, t: Turn) returns (evs: seq<Event>)
    requires At1(start, One([], 0, Replying(t), map[1 := 7], map[1 := BIG], map[1 := READ]), FIRST)
    requires t == Turn(7, false, false)
    ensures At1(evs, DONE, FIRST)
  {
    var f: map<Chat, TurnId> := map[1 := 7];
    var c, i, n := map[1 := BIG], map[1 := READ], FIRST;
    assert f - {1} == map[];
    MoveOne(start, [], 0, Replying(t), f, c, i, n, Finish, One([], 0, Tidying(t), map[], c, i));
    evs := start + [Move(0, Finish)];
    MoveOne(evs, [], 0, Tidying(t), map[], c, i, n, Release, One([], 0, Closing(t), map[], c, i));
    evs := evs + [Move(0, Release)];
    MoveOne(evs, [], 0, Closing(t), map[], c, i, n, Close, One([], 0, Idle, map[], c, i));
    evs := evs + [Move(0, Close)];
    TakeNone(evs, 0, c, i, n);
    evs := evs + [Take(0)];
  }

  lemma GateQueues(start: seq<Event>)
    requires At1(start, DONE, FIRST)
    ensures At1(start + [Arrive(1, 80)], One([COMPACTION], 1, Idle, map[], map[], map[1 := READ]),
                FIRST + [AutoQueued(1)])
  {
    var w := Exec(start);
    Append(start, Arrive(1, 80));
    assert OverThreshold(DONE.context, 1, 80);
    assert DONE.context - {1} == map[];
    PutFirst(DONE.(context := map[]), COMPACTION, map[1 := READ]);
    assert Consumed(w, 1).mem == DONE.(context := map[]);
  }

  /** A message queues a compaction, whose turn raises before it is dispatched. */
  lemma CompactionRaises(start: seq<Event>) returns (evs: seq<Event>)
    requires At1(start, DONE, FIRST)
    ensures At1(evs, QUIET, FIRST + [AutoQueued(1)])
  {
    GateQueues(start);
    evs := start + [Arrive(1, 80)];
    TakeFirst(evs, 1, COMPACTION, map[1 := READ], FIRST + [AutoQueued(1)]);
    evs := evs + [Take(1)];
    evs := RaiseAndPark(evs, map[1 := READ], FIRST + [AutoQueued(1)]);
  }

  lemma RaiseAndPark(start: seq<Event>, i: map<Chat, IdleReading>, n: seq<Note>) returns (evs: seq<Event>)
    requires At1(start, One([], 1, Starting(COMPACTION), map[], map[], i), n)
    ensures At1(evs, Memory(map[1 := []], map[], map[], 2, map[], map[], i, {}), n)
  {
    MoveOne(start, [], 1, Starting(COMPACTION), map[], map[], i, n, Raise,
            One([], 1, Failing(COMPACTION), map[], map[], i));
    evs := start + [Move(1, Raise)];
    evs := Park1(evs, i, n);
    TakeNone(evs, 1, map[], i, n);
    evs := evs + [Take(1)];
  }

  lemma Park1(start: seq<Event>, i: map<Chat, IdleReading>, n: seq<Note>) returns (evs: seq<Event>)
    requires At1(start, One([], 1, Failing(COMPACTION), map[], map[], i), n)
    ensures At1(evs, One([], 1, Idle, map[], map[], i), n)
  {
    var w := Exec(start);
    var p := Failing(COMPACTION);
    IdsHold(start);
    Append(start, Move(1, Park(true)));
    OneMoved([], 1, p, map[], map[], i, Journaled(w, p), Park(true));
    NextMove(w, 1, Park(true));
    MoveParts(w, 1, Park(true));
    evs := start + [Move(1, Park(true))];
  }

  const TICK := Tick(3500, 50, 300, [1])

  lemma QuietIsDue()
    ensures DueOrder(QUIET, 3500, 50, 300, [1])
    ensures Refreshed(QUIET, 3500).background == {}
  {
    assert DueForSilence(QUIET, 1, 3500, 50, 300);
  }

  lemma TickQueues(evs: seq<Event>)
    requires At1(evs, QUIET, FIRST + [AutoQueued(1)])
    ensures Exec(evs + [TICK]).notes == FIRST + [AutoQueued(1), AutoQueued(1)]
  {
    var w := Exec(evs);
    Append(evs, TICK);
    QuietIsDue();
    var w1 := w.(mem := Refreshed(w.mem, 3500));
    assert [1][1..] == [];
    assert SilenceAll(w1, [1]) == SilenceAll(Silence(w1, 1), []) == Silence(w1, 1);
    assert Next(w, TICK) == SilenceAll(w1, [1]);
  }

  /** A run without abort, shutdown or account failure in which two automatic
      compactions of one chat follow each other: the first one's turn raises before
      its dispatch, so the idle reading it should have dropped queues another. */
  lemma CompactionsCanFollowEachOther() returns (evs: seq<Event>)
    ensures forall i | 0 <= i < |evs| :: NoStopNoRefusal(evs[i])
    ensures Exec(evs).notes == FIRST + [AutoQueued(1), AutoQueued(1)]
  {
    evs := FirstTurn();
    evs := CompactionRaises(evs);
    TickQueues(evs);
    evs := evs + [TICK];
  }
}
