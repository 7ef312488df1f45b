/** Runs in which an accepted turn ends with no record although nothing said so. */
module TurnLoss {
  import opened Options
  import opened TurnEngine
  import opened TurnRuns
  import opened TurnSafety
  import opened TurnFates
  import opened TurnRepeat

  const TURN := Turn(7, false, false)

  lemma Fails(start: seq<Event>) returns (evs: seq<Event>, notes: seq<Note>)
    requires At1(start, One([], 0, Starting(TURN), map[], map[], map[]), [])
    ensures At1(evs, One([], 0, Erring(TURN), map[1 := 7], map[], map[]), notes)
  {
    var none: map<Chat, IdleReading> := map[];
    assert none - {1} == none;
    MoveOne(start, [], 0, Starting(TURN), map[], map[], map[], [], Dispatch,
            One([], 0, Preparing(TURN), map[], map[], map[]));
    evs := start + [Move(0, Dispatch)];
    notes := [] + [Dispatched(1)];
    MoveOne(evs, [], 0, Preparing(TURN), map[], map[], map[], notes, EnterFlight,
            One([], 0, Running(TURN), map[1 := 7], map[], map[]));
    evs := evs + [Move(0, EnterFlight)];
    MoveOne(evs, [], 0, Running(TURN), map[1 := 7], map[], map[], notes, Err,
            One([], 0, Erring(TURN), map[1 := 7], map[], map[]));
    evs := evs + [Move(0, Err)];
  }

  /** One message, whose agent fails. */
  lemma FailedTurn() returns (evs: seq<Event>, notes: seq<Note>)
    ensures At1(evs, One([], 0, Erring(TURN), map[1 := 7], map[], map[]), notes)
  {
    evs := Started();
    evs := FirstMessage(evs);
    TakeFirst(evs, 0, TURN, map[], []);
    evs, notes := Fails(evs + [Take(0)]);
  }

  lemma ShutdownReaches(evs: seq<Event>, m: Memory, d: Task)
    requires Exec(evs).mem == m && Exec(evs).stage.Serving? && d in m.tasks
    ensures var w, w' := Exec(evs), Exec(evs + [Shutdown]);
      && w'.disk == w.disk && w'.accepted == w.accepted && d in w'.mem.tasks
      && w'.mem.tasks[d] == m.tasks[d].(cancelled := true)
  {
    Append(evs, Shutdown);
  }

  /** Nothing on disk is left of the turn. */
  ghost predicate Gone(w: World, id: TurnId) {
    id in w.accepted && id !in w.disk.journal && id !in w.disk.recovery && id in w.settled
  }

  /** The agent of a turn fails, a shutdown arrives while the failure is being sent,
      and the cancellation drops the record. */
  lemma ReportCanBeLost() returns (evs: seq<Event>)
    ensures Gone(Exec(evs), 7) && Exec(evs).settled[7] == Unreported
  {
    var failed, notes := FailedTurn();
    FatesHold(failed);
    var w := Exec(failed);
    assert Recorded(w.mem.tasks[0], w.disk.journal, w.settled);
    WorkIsAccepted(w, 0);
    ShutdownReaches(failed, w.mem, 0);
    var stopped := failed + [Shutdown];
    CancellationDropsExactlyUnreported(stopped, 0, Move(0, Unwind));
    Append(stopped, Move(0, Unwind));
    evs := stopped + [Move(0, Unwind)];
  }

  // --- without a shutdown ---

  /** The agent answers, and sending the reply raises. */
  lemma ReplyRaises(start: seq<Event>) returns (evs: seq<Event>, notes: seq<Note>)
    requires At1(start, One([], 0, Starting(TURN), map[], map[], map[]), [])
    ensures At1(evs, One([], 0, Erring(TURN), map[1 := 7], map[], map[]), notes)
  {
    var none: map<Chat, IdleReading> := map[];
    assert none - {1} == none;
    MoveOne(start, [], 0, Starting(TURN), map[], map[], map[], [], Dispatch,
            One([], 0, Preparing(TURN), map[], map[], map[]));
    evs := start + [Move(0, Dispatch)];
    notes := [] + [Dispatched(1)];
    MoveOne(evs, [], 0, Preparing(TURN), map[], map[], map[], notes, EnterFlight,
            One([], 0, Running(TURN), map[1 := 7], map[], map[]));
    evs := evs + [Move(0, EnterFlight)];
    MoveOne(evs, [], 0, Running(TURN), map[1 := 7], map[], map[], notes, Respond(None, None),
            One([], 0, Replying(TURN), map[1 := 7], map[], map[]));
    evs := evs + [Move(0, Respond(None, None))];
    MoveOne(evs, [], 0, Replying(TURN), map[1 := 7], map[], map[], notes, Err,
            One([], 0, Erring(TURN), map[1 := 7], map[], map[]));
    evs := evs + [Move(0, Err)];
  }

  lemma ReportFails(start: seq<Event>, notes: seq<Note>) returns (evs: seq<Event>)
    requires At1(start, One([], 0, Erring(TURN), map[1 := 7], map[], map[]), notes)
    ensures At1(evs, One([], 0, Breaking(TURN), map[], map[], map[]), notes)
    ensures Gone(Exec(evs), 7) && Exec(evs).settled[7] == Unreported
  {
    var w := Exec(start);
    var flight: map<Chat, TurnId> := map[1 := 7];
    assert flight - {1} == map[];
    FatesHold(start);
    assert Recorded(w.mem.tasks[0], w.disk.journal, w.settled);
    WorkIsAccepted(w, 0);
    ReportsEndTheRecord(start, 0, ReportRaises);
    MoveOne(start, [], 0, Erring(TURN), map[1 := 7], map[], map[], notes, ReportRaises,
            One([], 0, Breaking(TURN), map[], map[], map[]));
    evs := start + [Move(0, ReportRaises)];
    Append(start, Move(0, ReportRaises));
    TurnFates.MoveParts(w, 0, ReportRaises);
  }

  /** A step of a task whose turn is gone already. */
  lemma StaysGone(evs: seq<Event>, d: Task, step: Step)
    requires CanMove(Exec(evs).mem, d, step) && (step.Raise? || step.Park?)
    requires Gone(Exec(evs), 7) && HasTurn(Exec(evs).mem.tasks[d].phase) && Exec(evs).mem.tasks[d].phase.turn == TURN
    ensures Gone(Exec(evs + [Move(d, step)]), 7)
    ensures Exec(evs + [Move(d, step)]).settled == Exec(evs).settled
  {
    Append(evs, Move(d, step));
    TurnFates.MoveParts(Exec(evs), d, step);
  }

  /** Without any abort, shutdown, cancellation or account failure: the agent answers,
      the reply cannot be sent, nor can the report of that. The record is dropped, so the
      drain finds nothing to park when the error reaches it. */
  lemma ReportCanFail() returns (evs: seq<Event>)
    ensures forall i | 0 <= i < |evs| :: NoStopNoRefusal(evs[i])
    ensures Gone(Exec(evs), 7) && Exec(evs).settled[7] == Unreported
    ensures Exec(evs).mem.tasks == map[0 := Drain(1, Idle, false)]
  {
    evs := Started();
    evs := FirstMessage(evs);
    TakeFirst(evs, 0, TURN, map[], []);
    var notes;
    evs, notes := ReplyRaises(evs + [Take(0)]);
    evs := ReportFails(evs, notes);
    StaysGone(evs, 0, Raise);
    MoveOne(evs, [], 0, Breaking(TURN), map[], map[], map[], notes, Raise,
            One([], 0, Failing(TURN), map[], map[], map[]));
    evs := evs + [Move(0, Raise)];
    evs := ParksNothing(evs, notes);
  }

  lemma ParksNothing(start: seq<Event>, notes: seq<Note>) returns (evs: seq<Event>)
    requires At1(start, One([], 0, Failing(TURN), map[], map[], map[]), notes)
    requires Gone(Exec(start), 7)
    ensures (forall i | 0 <= i < |evs| :: NoStopNoRefusal(evs[i])) && Gone(Exec(evs), 7)
    ensures Exec(evs).settled == Exec(start).settled
    ensures Exec(evs).mem.tasks == map[0 := Drain(1, Idle, false)]
  {
    var w := Exec(start);
    StaysGone(start, 0, Park(true));
    Append(start, Move(0, Park(true)));
    OneMoved([], 0, Failing(TURN), map[], map[], map[], Journaled(w, Failing(TURN)), Park(true));
    NextMove(w, 0, Park(true));
    TurnRepeat.MoveParts(w, 0, Park(true));
    evs := start + [Move(0, Park(true))];
  }

  // --- a refusal ---

  lemma Refuses(start: seq<Event>) returns (evs: seq<Event>)
    requires At1(start, One([], 0, Starting(TURN), map[], map[], map[]), [])
    ensures Gone(Exec(evs), 7) && Exec(evs).settled[7] == Untold
  {
    var w := Exec(start);
    FatesHold(start);
    assert Recorded(w.mem.tasks[0], w.disk.journal, w.settled);
    WorkIsAccepted(w, 0);
    Append(start, Move(0, Refuse));
    TurnFates.MoveParts(w, 0, Refuse);
    evs := start + [Move(0, Refuse)];
  }

  /** A turn is refused, and the process dies before the notice of that is sent: the
      record went first. */
  lemma RefusalCanStayUntold() returns (evs: seq<Event>)
    ensures Exec(evs).stage.Booting? && Gone(Exec(evs), 7) && Exec(evs).settled[7] == Untold
  {
    evs := Started();
    evs := FirstMessage(evs);
    TakeFirst(evs, 0, TURN, map[], []);
    evs := Refuses(evs + [Take(0)]);
    Append(evs, Crash);
    evs := evs + [Crash];
  }
}
