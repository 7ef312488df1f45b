/** Crash safety of the turn engine: an accepted turn has a record from before it is
    queued until it is answered, refused, aborted or parked. */
module TurnSafety {
  import opened TurnEngine
  import opened TurnRuns
  import opened TurnStart

  // --- identities ---

  /** No journal id is queued twice in one process, and none belongs to two chats. */
  ghost predicate PutsOk(puts: seq<PutRecord>, accepted: map<TurnId, Chat>) {
    && (forall i, j | 0 <= i < j < |puts| ::
          puts[i].turn.id == puts[j].turn.id ==> puts[i].turn.id == NO_ID)
    && (forall k | 0 <= k < |puts| && puts[k].turn.id != NO_ID ::
          puts[k].turn.id in accepted && accepted[puts[k].turn.id] == puts[k].chat)
  }

  /** What `take` still has to replay was accepted and not queued yet. */
  ghost predicate PlanOk(plan: map<Chat, seq<Turn>>, puts: seq<PutRecord>, accepted: map<TurnId, Chat>) {
    && (forall c, i | 0 <= i < |At(plan, c)| ::
          && At(plan, c)[i].id != NO_ID && At(plan, c)[i].id in accepted && accepted[At(plan, c)[i].id] == c)
    && (forall c, i, j | 0 <= i < j < |At(plan, c)| :: At(plan, c)[i].id < At(plan, c)[j].id)
    && (forall c, i, k | 0 <= i < |At(plan, c)| && 0 <= k < |puts| :: At(plan, c)[i].id != puts[k].turn.id)
  }

  ghost predicate IdInv(w: World) {
    && PutsOk(w.puts, w.accepted)
    && PlanOk(w.plan, w.puts, w.accepted)
    && NO_ID !in w.accepted
    && (forall id | id in w.disk.journal ::
          && id != NO_ID && id in w.accepted && w.accepted[id] == w.disk.journal[id].chat
          && w.disk.journal[id].replays <= MAX_REPLAYS)
  }

  lemma IdsEnqueued(w: World, c: Chat, turn: Turn)
    requires PutsOk(w.puts, w.accepted)
    requires turn.id != NO_ID ==>
      && turn.id in w.accepted && w.accepted[turn.id] == c
      && forall k | 0 <= k < |w.puts| :: w.puts[k].turn.id != turn.id
    ensures PutsOk(Enqueued(w, c, turn).puts, w.accepted)
  {
  }

  lemma IdsSilence(w: World, order: seq<Chat>)
    requires IdInv(w)
    ensures IdInv(SilenceAll(w, order))
    decreases |order|
  {
    if |order| != 0 && |w.mem.background| < IDLE_COMPACT_MAX_RUNNING {
      IdsEnqueued(Claimed(w, order[0]), order[0], SILENT);
      IdsSilence(Silence(w, order[0]), order[1..]);
    }
  }

  lemma IdsAccept(w: World, i: nat, id: TurnId)
    requires IdInv(w) && i < |w.waiting| && id != NO_ID && id !in w.accepted
    ensures IdInv(AcceptStep(w, i, id))
  {
    var c := w.waiting[i].chat;
    var w1 := w.(accepted := w.accepted[id := c]);
    assert PutsOk(w.puts, w1.accepted);
    IdsEnqueued(w1, c, Turn(id, false, false));
    assert AcceptStep(w, i, id).puts == Enqueued(w1, c, Turn(id, false, false)).puts;
  }

  lemma IdsReplay(w: World, c: Chat)
    requires IdInv(w) && |PlanOf(w, c)| != 0
    ensures IdInv(ReplayStep(w, c))
  {
    var turn := w.plan[c][0];
    var w' := ReplayStep(w, c);
    assert At(w.plan, c)[0] == turn;
    IdsEnqueued(w, c, turn);
    forall b ensures At(w'.plan, b) == (if b == c then At(w.plan, c)[1..] else At(w.plan, b)) {}
    forall b, i, k | 0 <= i < |At(w'.plan, b)| && 0 <= k < |w'.puts|
      ensures At(w'.plan, b)[i].id != w'.puts[k].turn.id
    {
      var j := if b == c then i + 1 else i;
      assert At(w'.plan, b)[i] == At(w.plan, b)[j];
      if k == |w.puts| { assert w'.puts[k].turn == At(w.plan, c)[0]; }
    }
  }

  lemma IdsBoot(w: World, stale: set<TurnId>, stuck: set<TurnId>, written: bool)
    requires IdInv(w) && |w.puts| == 0
    ensures IdInv(BootStep(w, stale, stuck, written))
  {
    var w' := BootStep(w, stale, stuck, written);
    TakePlanIsRight(w.disk.journal, stale);
    forall c, i | 0 <= i < |At(w'.plan, c)| ensures Replayable(w.disk.journal, stale, At(w'.plan, c)[i].id) {
      assert At(w'.plan, c)[i] in At(w'.plan, c);
    }
    assert PlanOk(w'.plan, w'.puts, w'.accepted);
  }

  lemma IdsArrive(w: World, c: Chat, due: bool)
    requires IdInv(w)
    ensures IdInv(ArriveStep(w, c, due))
  {
    IdsEnqueued(Consumed(w, c), c, COMPACTION);
  }

  lemma IdsCompact(w: World, c: Chat)
    requires IdInv(w)
    ensures IdInv(Enqueued(w, c, COMPACTION))
  {
    IdsEnqueued(w, c, COMPACTION);
  }

  lemma IdsQueues(w: World, ev: Event)
    requires IdInv(w) && Enabled(w, ev) && Queues(ev)
    ensures IdInv(Next(w, ev))
  {
    match ev
    case Arrive(c, threshold) => IdsArrive(w, c, OverThreshold(w.mem.context, c, threshold));
    case Accept(i, id) => IdsAccept(w, i, id);
    case Compact(c) => IdsCompact(w, c);
    case Tick(now, _, _, order) => IdsSilence(w.(mem := Refreshed(w.mem, now)), order);
    case Replay(c) => IdsReplay(w, c);
  }

  /** Nothing is queued, planned or accepted, and records only go or are marked. */
  lemma IdsFrame(w: World, w': World)
    requires IdInv(w) && w'.puts == w.puts && w'.plan == w.plan && w'.accepted == w.accepted
    requires forall id | id in w'.disk.journal ::
      && id in w.disk.journal && w'.disk.journal[id].chat == w.disk.journal[id].chat
      && w'.disk.journal[id].replays == w.disk.journal[id].replays
    ensures IdInv(w')
  {
  }

  lemma IdsMove(w: World, d: Task, step: Step)
    requires IdInv(w) && CanMove(w.mem, d, step)
    ensures IdInv(MoveStep(w, d, step))
  {
    IdsFrame(w, MoveStep(w, d, step));
  }

  lemma IdsTake(w: World, d: Task)
    requires IdInv(w) && d in w.mem.tasks
    ensures IdInv(TakeStep(w, d))
  {
    IdsFrame(w, TakeStep(w, d));
  }

  lemma IdsAbort(w: World, c: Chat)
    requires IdInv(w)
    ensures IdInv(AbortStep(w, c))
  {
    IdsFrame(w, AbortStep(w, c));
  }

  lemma IdsRest(w: World, ev: Event)
    requires TaskInv(w) && IdInv(w) && Enabled(w, ev) && !Queues(ev)
    ensures IdInv(Next(w, ev))
  {
    match ev
    case Boot(stale, stuck, written) => IdsBoot(w, stale, stuck, written);
    case Take(d) => IdsTake(w, d);
    case Move(d, step) => IdsMove(w, d, step);
    case End(d, released) => IdsFrame(w, EndStep(w, d, released));
    case Abort(c) => IdsAbort(w, c);
    case Shutdown => IdsFrame(w, ShutdownStep(w));
    case SessionChanges(_) => IdsFrame(w, Next(w, ev));
    case Crash =>
    case Serve => IdsFrame(w, w.(stage := Serving));
  }

  lemma {:induction false} IdsHold(evs: seq<Event>)
    ensures IdInv(Exec(evs))
  {
    if evs != [] {
      var past := evs[..|evs| - 1];
      IdsHold(past);
      TaskHolds(past);
      var ev := evs[|evs| - 1];
      if Enabled(Exec(past), ev) {
        if Queues(ev) { IdsQueues(Exec(past), ev); } else { IdsRest(Exec(past), ev); }
      }
    }
  }

  /** No journal id is in two places, and none is processed twice in one process:
      different tickets, waiting or started, carry different ids. */
  lemma NoIdTwice(evs: seq<Event>, j: nat, k: nat)
    requires j < |Exec(evs).puts| && k < |Exec(evs).puts|
    requires Exec(evs).puts[j].turn.id == Exec(evs).puts[k].turn.id != NO_ID
    ensures j == k
  {
    IdsHold(evs);
    var a, b := Exec(evs).puts[j], Exec(evs).puts[k];
  }

  // --- records ---

  /** A turn a task has not finished with is in the journal; one in flight may have
      lost its record to the abort that is cancelling it. */
  predicate Recorded(t: Drain, journal: map<TurnId, Pending>, settled: map<TurnId, Fate>) {
    HasTurn(t.phase) && t.phase.turn.id != NO_ID ==>
      var id := t.phase.turn.id;
      && (t.phase.Starting? || t.phase.Preparing? ==> id in journal)
      && (InFlight(t.phase) ==> (id in journal || (t.cancelled && id in settled)))
      && ((t.phase.Preparing? || InFlight(t.phase)) && id in journal ==> journal[id].dispatched)
  }

  ghost predicate WorkOk(w: World) {
    forall d | d in w.mem.tasks :: Recorded(w.mem.tasks[d], w.disk.journal, w.settled)
  }

  ghost predicate WaitingOk(w: World) {
    && (forall c, i | 0 <= i < |At(w.mem.queues, c)| && At(w.mem.queues, c)[i].id != NO_ID ::
          At(w.mem.queues, c)[i].id in w.disk.journal)
    && (forall c, i | 0 <= i < |At(w.plan, c)| :: At(w.plan, c)[i].id in w.disk.journal)
  }

  /** Every id ever accepted is recorded, parked, or has met its fate. */
  ghost predicate Accounted(w: World) {
    forall id | id in w.accepted :: id in w.disk.journal || id in w.disk.recovery || id in w.settled
  }

  ghost predicate SafeInv(w: World) { WorkOk(w) && WaitingOk(w) && Accounted(w) }

  ghost predicate AllInv(w: World) { TaskInv(w) && BookInv(w) && IdInv(w) && SafeInv(w) }

  /** The id a task works on is nowhere else in the process. */
  lemma Apart(w: World, d: Task, id: TurnId)
    requires TaskInv(w) && BookInv(w) && IdInv(w)
    requires d in w.mem.tasks && HasTurn(w.mem.tasks[d].phase)
    requires id == w.mem.tasks[d].phase.turn.id != NO_ID
    ensures forall c, i | 0 <= i < |At(w.mem.queues, c)| :: At(w.mem.queues, c)[i].id != id
    ensures forall c, i | 0 <= i < |At(w.plan, c)| :: At(w.plan, c)[i].id != id
    ensures forall e | e in w.mem.tasks && e != d && HasTurn(w.mem.tasks[e].phase) ::
      w.mem.tasks[e].phase.turn.id != id
  {
    var k := w.held[d];
    forall c, i | 0 <= i < |At(w.mem.queues, c)| ensures At(w.mem.queues, c)[i].id != id {
      assert ChatOk(c, At(w.starts, c), At(w.lines, c), At(w.mem.queues, c), w.puts);
      var j := At(w.lines, c)[i];
      assert w.puts[j] == PutRecord(c, At(w.mem.queues, c)[i]);
      if w.puts[j].turn.id == id {
        SameTicket(w, j, k);
        StartedNotWaiting(At(w.starts, c), At(w.lines, c), j);
      }
    }
    forall e | e in w.mem.tasks && e != d && HasTurn(w.mem.tasks[e].phase)
      ensures w.mem.tasks[e].phase.turn.id != id
    {
      if w.mem.tasks[e].phase.turn.id == id { SameTicket(w, w.held[e], k); }
    }
  }

  lemma SameTicket(w: World, j: nat, k: nat)
    requires IdInv(w) && j < |w.puts| && k < |w.puts| && w.puts[j].turn.id == w.puts[k].turn.id != NO_ID
    ensures j == k
  {
    var a, b := w.puts[j], w.puts[k];
  }

  lemma SafeEnqueued(w: World, c: Chat, turn: Turn)
    requires SafeInv(w) && TasksOk(w.mem) && (turn.id == NO_ID || turn.id in w.disk.journal)
    ensures SafeInv(Enqueued(w, c, turn))
  {
    var w' := Enqueued(w, c, turn);
    assert forall d | d in w'.mem.tasks && HasTurn(w'.mem.tasks[d].phase) ::
      d in w.mem.tasks && w'.mem.tasks[d] == w.mem.tasks[d];
    forall b ensures At(w'.mem.queues, b) == (if b == c then At(w.mem.queues, c) + [turn] else At(w.mem.queues, b)) {}
  }

  lemma SafeSilence(w: World, order: seq<Chat>)
    requires SafeInv(w) && TasksOk(w.mem) && FlightOk(w.mem)
    ensures SafeInv(SilenceAll(w, order))
    decreases |order|
  {
    if |order| != 0 && |w.mem.background| < IDLE_COMPACT_MAX_RUNNING {
      SafeEnqueued(Claimed(w, order[0]), order[0], SILENT);
      TaskPut(Claimed(w, order[0]).mem, order[0], SILENT);
      SafeSilence(Silence(w, order[0]), order[1..]);
    }
  }

  /** One record changes: the others a task or a queue relies on stay. */
  lemma SafeRecord(w: World, w': World, d: Task, id: TurnId)
    requires AllInv(w) && d in w.mem.tasks && HasTurn(w.mem.tasks[d].phase)
    requires id == w.mem.tasks[d].phase.turn.id
    requires w'.mem.queues == w.mem.queues && w'.plan == w.plan
    requires w'.mem.tasks.Keys == w.mem.tasks.Keys
    requires forall e | e in w.mem.tasks && e != d :: w'.mem.tasks[e] == w.mem.tasks[e]
    requires forall x | x != id ::
      && (x in w.disk.journal <==> x in w'.disk.journal)
      && (x in w.disk.journal ==> w'.disk.journal[x] == w.disk.journal[x])
      && (x in w.settled ==> x in w'.settled)
    ensures WaitingOk(w')
    ensures forall e | e in w.mem.tasks && e != d :: Recorded(w.mem.tasks[e], w'.disk.journal, w'.settled)
  {
    if id != NO_ID { Apart(w, d, id); }
    forall e | e in w.mem.tasks && e != d ensures Recorded(w.mem.tasks[e], w'.disk.journal, w'.settled) {
      assert Recorded(w.mem.tasks[e], w.disk.journal, w.settled);
    }
  }

  /** What a step leaves of its own turn's record. */
  lemma SafeOwn(disk: Disk, settled: map<TurnId, Fate>, t: Drain, journaled: bool, step: Step)
    requires Recorded(t, disk.journal, settled) && HasTurn(t.phase) && StepEnabled(t.phase, t.cancelled, step)
    ensures forall more :: Recorded(Drain(t.chat, After(t.phase, journaled, step), false),
                                    DiskAfter(disk, t.phase, step).journal, more)
  {
    assert t.cancelled ==> step.Unwind?;
  }

  /** A step that drops its record settles or parks the turn. */
  lemma AccountedMove(w: World, d: Task, step: Step)
    requires Accounted(w) && NO_ID !in w.accepted && CanMove(w.mem, d, step)
    ensures Accounted(MoveStep(w, d, step))
  {
    var p := w.mem.tasks[d].phase;
    var w' := MoveStep(w, d, step);
    if HasTurn(p) {
      var id := p.turn.id;
      assert id in w.disk.journal ==>
          id in w'.disk.journal || id in w'.disk.recovery || id in w'.settled || id == NO_ID;
    }
  }

  lemma RecordChange(w: World, d: Task, step: Step)
    requires CanMove(w.mem, d, step) && HasTurn(w.mem.tasks[d].phase)
    ensures var w' := MoveStep(w, d, step);
      forall x | x != w.mem.tasks[d].phase.turn.id ::
        && (x in w.disk.journal <==> x in w'.disk.journal)
        && (x in w.disk.journal ==> w'.disk.journal[x] == w.disk.journal[x])
        && (x in w.settled ==> x in w'.settled)
  {
  }

  lemma SafeMove(w: World, d: Task, step: Step)
    requires AllInv(w) && CanMove(w.mem, d, step)
    ensures SafeInv(MoveStep(w, d, step))
  {
    var p := w.mem.tasks[d].phase;
    AccountedMove(w, d, step);
    if HasTurn(p) {
      RecordChange(w, d, step);
      SafeRecord(w, MoveStep(w, d, step), d, p.turn.id);
      assert Recorded(w.mem.tasks[d], w.disk.journal, w.settled);
      SafeOwn(w.disk, w.settled, w.mem.tasks[d], Journaled(w, p), step);
      SafeMoved(w, MoveStep(w, d, step), d);
    } else {
      SafeRetire(w, MoveStep(w, d, step), d);
    }
  }

  /** Every other task is covered, and so is the one that moved. */
  lemma SafeMoved(w: World, w': World, d: Task)
    requires d in w.mem.tasks && w'.mem.tasks.Keys == w.mem.tasks.Keys
    requires forall e | e in w.mem.tasks && e != d :: w'.mem.tasks[e] == w.mem.tasks[e]
    requires forall e | e in w.mem.tasks && e != d :: Recorded(w.mem.tasks[e], w'.disk.journal, w'.settled)
    requires Recorded(w'.mem.tasks[d], w'.disk.journal, w'.settled)
    ensures WorkOk(w')
  {
  }

  lemma SafeRetire(w: World, w': World, d: Task)
    requires WorkOk(w) && WaitingOk(w) && d in w.mem.tasks
    requires w'.mem.tasks == w.mem.tasks[d := Drain(w.mem.tasks[d].chat, Idle, false)]
    requires w'.mem.queues == w.mem.queues && w'.plan == w.plan && w'.disk == w.disk && w'.settled == w.settled
    ensures WorkOk(w') && WaitingOk(w')
  {
  }

  lemma SafeTake(w: World, d: Task)
    requires SafeInv(w) && d in w.mem.tasks && w.mem.tasks[d].phase.Idle?
    requires |At(w.lines, w.mem.tasks[d].chat)| == |At(w.mem.queues, w.mem.tasks[d].chat)|
    ensures SafeInv(TakeStep(w, d))
  {
    var c := w.mem.tasks[d].chat;
    var w' := TakeStep(w, d);
    if |At(w.mem.queues, c)| == 0 {
      SafeGone(w, w', d);
    } else {
      var turn := At(w.mem.queues, c)[0];
      assert turn.id != NO_ID ==> turn.id in w.disk.journal;
      SafeStarts(w, w', d, turn);
      TakenWaits(w, w', c);
    }
  }

  lemma SafeGone(w: World, w': World, d: Task)
    requires SafeInv(w) && w'.mem.tasks == w.mem.tasks - {d} && w'.mem.queues == w.mem.queues
    requires w'.disk == w.disk && w'.settled == w.settled && w'.plan == w.plan && w'.accepted == w.accepted
    ensures SafeInv(w')
  {
  }

  lemma SafeStarts(w: World, w': World, d: Task, turn: Turn)
    requires WorkOk(w) && d in w.mem.tasks && (turn.id != NO_ID ==> turn.id in w.disk.journal)
    requires w'.mem.tasks == w.mem.tasks[d := Drain(w.mem.tasks[d].chat, Starting(turn), false)]
    requires w'.disk == w.disk && w'.settled == w.settled
    ensures WorkOk(w')
  {
  }

  lemma TakenWaits(w: World, w': World, c: Chat)
    requires WaitingOk(w) && |At(w.mem.queues, c)| != 0
    requires w'.mem.queues == w.mem.queues[c := At(w.mem.queues, c)[1..]]
    requires w'.plan == w.plan && w'.disk == w.disk
    ensures WaitingOk(w')
  {
    forall b, i | 0 <= i < |At(w'.mem.queues, b)| && At(w'.mem.queues, b)[i].id != NO_ID
      ensures At(w'.mem.queues, b)[i].id in w'.disk.journal
    {
      assert At(w'.mem.queues, b)[i] == At(w.mem.queues, b)[if b == c then i + 1 else i];
    }
  }

  /** Two queue positions with one id are one position. */
  lemma QueuesApart(w: World, b: Chat, i: nat, c: Chat, j: nat)
    requires BookInv(w) && IdInv(w) && b != c && i < |At(w.mem.queues, b)| && j < |At(w.mem.queues, c)|
    requires At(w.mem.queues, b)[i].id != NO_ID
    ensures At(w.mem.queues, b)[i].id != At(w.mem.queues, c)[j].id
  {
    assert ChatOk(b, At(w.starts, b), At(w.lines, b), At(w.mem.queues, b), w.puts);
    assert ChatOk(c, At(w.starts, c), At(w.lines, c), At(w.mem.queues, c), w.puts);
    var x, y := At(w.lines, b)[i], At(w.lines, c)[j];
    assert w.puts[x] == PutRecord(b, At(w.mem.queues, b)[i]) && w.puts[y] == PutRecord(c, At(w.mem.queues, c)[j]);
    if w.puts[x].turn.id == w.puts[y].turn.id { SameTicket(w, x, y); }
  }

  /** An abort drops no record that another chat's queue or a later replay needs. */
  lemma AbortSparesWaiting(w: World, c: Chat, id: TurnId)
    requires AllInv(w) && id in AbortedIds(w.mem, c) && id != NO_ID
    ensures forall b, i | b != c && 0 <= i < |At(w.mem.queues, b)| :: At(w.mem.queues, b)[i].id != id
    ensures forall b, i | 0 <= i < |At(w.plan, b)| :: At(w.plan, b)[i].id != id
    ensures forall e | e in w.mem.tasks && HasTurn(w.mem.tasks[e].phase) && w.mem.tasks[e].phase.turn.id == id ::
      w.mem.tasks[e].chat == c && InFlight(w.mem.tasks[e].phase)
  {
    if Busy(w.mem, c) && c in w.mem.inFlight && id == w.mem.inFlight[c] {
      Apart(w, w.mem.running[c], id);
    } else {
      var turn :| turn in QueueOf(w.mem, c) && turn.id == id;
      var j :| 0 <= j < |At(w.mem.queues, c)| && At(w.mem.queues, c)[j] == turn;
      forall b, i | b != c && 0 <= i < |At(w.mem.queues, b)| ensures At(w.mem.queues, b)[i].id != id {
        if At(w.mem.queues, b)[i].id != NO_ID { QueuesApart(w, b, i, c, j); }
      }
      assert ChatOk(c, At(w.starts, c), At(w.lines, c), At(w.mem.queues, c), w.puts);
      assert w.puts[At(w.lines, c)[j]].turn.id == id;
      forall e | e in w.mem.tasks && HasTurn(w.mem.tasks[e].phase) ensures w.mem.tasks[e].phase.turn.id != id {
        if w.mem.tasks[e].phase.turn.id == id { Apart(w, e, id); }
      }
    }
  }

  /** Dropping records is covered for a task that loses none, or is in flight and
      being cancelled. */
  lemma RecordedCut(t: Drain, t': Drain, journal: map<TurnId, Pending>, settled: map<TurnId, Fate>,
                    ids: set<TurnId>, settled': map<TurnId, Fate>)
    requires Recorded(t, journal, settled) && t'.phase == t.phase && (t.cancelled ==> t'.cancelled)
    requires HasTurn(t.phase) && t.phase.turn.id != NO_ID && t.phase.turn.id in ids ==>
      InFlight(t.phase) && t'.cancelled && t.phase.turn.id in settled'
    requires forall id | id in settled :: id in settled'
    ensures Recorded(t', journal - ids, settled')
  {
  }

  lemma AbortedTask(m: Memory, c: Chat, e: Task)
    requires TasksOk(m) && e in m.tasks
    ensures var m' := AbortMemory(m, c);
      && e in m'.tasks && m'.tasks[e].phase == m.tasks[e].phase && (m.tasks[e].cancelled ==> m'.tasks[e].cancelled)
      && (m.tasks[e].chat == c ==> m'.tasks[e].cancelled)
  {
  }

  /** An abort takes the record of at most one task, and cancels that task. */
  lemma AbortKeepsTask(w: World, c: Chat, e: Task)
    requires AllInv(w) && e in w.mem.tasks
    ensures var w' := AbortStep(w, c);
      e in w'.mem.tasks && Recorded(w'.mem.tasks[e], w'.disk.journal, w'.settled)
  {
    var t := w.mem.tasks[e];
    var ids := AbortedIds(w.mem, c);
    AbortedTask(w.mem, c, e);
    assert Recorded(t, w.disk.journal, w.settled);
    if HasTurn(t.phase) && t.phase.turn.id != NO_ID && t.phase.turn.id in ids {
      AbortSparesWaiting(w, c, t.phase.turn.id);
    }
    RecordedCut(t, AbortMemory(w.mem, c).tasks[e], w.disk.journal, w.settled, ids, Fated(w.settled, ids, Aborted));
  }

  lemma AbortKeepsWork(w: World, c: Chat)
    requires AllInv(w)
    ensures WorkOk(AbortStep(w, c))
  {
    var w' := AbortStep(w, c);
    forall e | e in w'.mem.tasks ensures Recorded(w'.mem.tasks[e], w'.disk.journal, w'.settled) {
      AbortKeepsTask(w, c, e);
    }
  }

  lemma AbortSparesQueue(w: World, c: Chat, b: Chat, i: nat)
    requires AllInv(w) && b != c && i < |At(w.mem.queues, b)| && At(w.mem.queues, b)[i].id != NO_ID
    ensures At(w.mem.queues, b)[i].id in AbortStep(w, c).disk.journal
  {
    var id := At(w.mem.queues, b)[i].id;
    assert id in w.disk.journal;
    if id in AbortedIds(w.mem, c) { AbortSparesWaiting(w, c, id); }
  }

  lemma AbortSparesPlan(w: World, c: Chat, b: Chat, i: nat)
    requires AllInv(w) && i < |At(w.plan, b)|
    ensures At(w.plan, b)[i].id in AbortStep(w, c).disk.journal
  {
    var id := At(w.plan, b)[i].id;
    assert id in w.disk.journal;
    if id in AbortedIds(w.mem, c) { AbortSparesWaiting(w, c, id); }
  }

  lemma AbortKeepsWaiting(w: World, c: Chat)
    requires AllInv(w)
    ensures WaitingOk(AbortStep(w, c))
  {
    var w' := AbortStep(w, c);
    forall b, i | 0 <= i < |At(w'.mem.queues, b)| && At(w'.mem.queues, b)[i].id != NO_ID
      ensures At(w'.mem.queues, b)[i].id in w'.disk.journal
    {
      assert b != c && At(w'.mem.queues, b) == At(w.mem.queues, b);
      AbortSparesQueue(w, c, b, i);
    }
    forall b, i | 0 <= i < |At(w'.plan, b)| ensures At(w'.plan, b)[i].id in w'.disk.journal {
      AbortSparesPlan(w, c, b, i);
    }
  }

  lemma SafeAbort(w: World, c: Chat)
    requires AllInv(w)
    ensures SafeInv(AbortStep(w, c))
  {
    AbortKeepsWork(w, c);
    AbortKeepsWaiting(w, c);
  }

  lemma SafeBoot(w: World, stale: set<TurnId>, stuck: set<TurnId>, written: bool)
    requires SafeInv(w) && w.mem == NOTHING
    ensures SafeInv(BootStep(w, stale, stuck, written))
  {
    var w' := BootStep(w, stale, stuck, written);
    TakePlanIsRight(w.disk.journal, stale);
    forall c, i | 0 <= i < |At(w'.plan, c)| ensures At(w'.plan, c)[i].id in w'.disk.journal {
      assert At(w'.plan, c)[i] in At(w'.plan, c);
    }
  }

  /** The turns a process works on were accepted. */
  lemma WorkIsAccepted(w: World, d: Task)
    requires BookInv(w) && IdInv(w) && d in w.mem.tasks && HasTurn(w.mem.tasks[d].phase)
    ensures w.mem.tasks[d].phase.turn.id == NO_ID || w.mem.tasks[d].phase.turn.id in w.accepted
  {
    assert w.puts[w.held[d]].turn == w.mem.tasks[d].phase.turn;
  }

  lemma SafeAccept(w: World, i: nat, id: TurnId)
    requires AllInv(w) && i < |w.waiting| && id !in w.accepted && id != NO_ID
    ensures SafeInv(AcceptStep(w, i, id))
  {
    var c := w.waiting[i].chat;
    var w1 := w.(disk := w.disk.(journal := w.disk.journal[id := Pending(c, false, 0)]));
    forall d | d in w.mem.tasks && HasTurn(w.mem.tasks[d].phase) ensures w.mem.tasks[d].phase.turn.id != id {
      WorkIsAccepted(w, d);
    }
    assert SafeInv(w1);
    SafeEnqueued(w1, c, Turn(id, false, false));
    assert AcceptStep(w, i, id).mem == Enqueued(w1, c, Turn(id, false, false)).mem;
  }

  lemma SafeReplay(w: World, c: Chat)
    requires AllInv(w) && |PlanOf(w, c)| != 0
    ensures SafeInv(ReplayStep(w, c))
  {
    var turn := w.plan[c][0];
    assert At(w.plan, c)[0] == turn;
    SafeEnqueued(w, c, turn);
    var w' := ReplayStep(w, c);
    forall b ensures At(w'.plan, b) == (if b == c then At(w.plan, c)[1..] else At(w.plan, b)) {}
    forall b, i | 0 <= i < |At(w'.plan, b)| ensures At(w'.plan, b)[i].id in w'.disk.journal {
      assert At(w'.plan, b)[i] == At(w.plan, b)[if b == c then i + 1 else i];
    }
  }

  lemma SafeArrive(w: World, c: Chat, due: bool)
    requires AllInv(w)
    ensures SafeInv(ArriveStep(w, c, due))
  {
    SafeEnqueued(Consumed(w, c), c, COMPACTION);
  }

  lemma SafeTick(w: World, now: int, order: seq<Chat>)
    requires AllInv(w)
    ensures SafeInv(SilenceAll(w.(mem := Refreshed(w.mem, now)), order))
  {
    assert TasksOk(Refreshed(w.mem, now)) && FlightOk(Refreshed(w.mem, now));
    SafeSilence(w.(mem := Refreshed(w.mem, now)), order);
  }

  lemma SafeQueues(w: World, ev: Event)
    requires AllInv(w) && Enabled(w, ev) && Queues(ev)
    ensures SafeInv(Next(w, ev))
  {
    match ev
    case Arrive(c, threshold) => SafeArrive(w, c, OverThreshold(w.mem.context, c, threshold));
    case Accept(i, id) => SafeAccept(w, i, id);
    case Compact(c) => SafeEnqueued(w, c, COMPACTION);
    case Tick(now, _, _, order) => SafeTick(w, now, order);
    case Replay(c) => SafeReplay(w, c);
  }

  lemma SafeEnd(w: World, d: Task, released: bool)
    requires SafeInv(w) && CanEnd(w.mem, d)
    ensures SafeInv(EndStep(w, d, released))
  {
  }

  lemma SafeRest(w: World, ev: Event)
    requires AllInv(w) && Enabled(w, ev) && !Queues(ev)
    ensures SafeInv(Next(w, ev))
  {
    match ev
    case Take(d) =>
      var c := w.mem.tasks[d].chat;
      assert ChatOk(c, At(w.starts, c), At(w.lines, c), At(w.mem.queues, c), w.puts);
      SafeTake(w, d);
    case Move(d, step) => SafeMove(w, d, step);
    case End(d, released) => SafeEnd(w, d, released);
    case Abort(c) => SafeAbort(w, c);
    case Shutdown =>
    case SessionChanges(_) =>
    case Crash =>
    case Boot(stale, stuck, written) => SafeBoot(w, stale, stuck, written);
    case Serve =>
  }

  lemma {:induction false} AllHold(evs: seq<Event>)
    ensures AllInv(Exec(evs))
  {
    TaskHolds(evs);
    BookHolds(evs);
    IdsHold(evs);
    if evs != [] {
      var past := evs[..|evs| - 1];
      AllHold(past);
      var ev := evs[|evs| - 1];
      if Enabled(Exec(past), ev) {
        if Queues(ev) { SafeQueues(Exec(past), ev); } else { SafeRest(Exec(past), ev); }
      }
    }
  }

  /** From the moment an agent may have run, the record says so. */
  lemma AgentsRunMarked(evs: seq<Event>, d: Task)
    requires var w := Exec(evs);
      && d in w.mem.tasks && InFlight(w.mem.tasks[d].phase)
      && w.mem.tasks[d].phase.turn.id in w.disk.journal
    ensures var w := Exec(evs); w.disk.journal[w.mem.tasks[d].phase.turn.id].dispatched
  {
    AllHold(evs);
  }

  /** How a task's own step removes a record. */
  predicate RemovedByStep(w: World, w': World, d: Task, step: Step, id: TurnId) {
    && CanMove(w.mem, d, step) && HasTurn(w.mem.tasks[d].phase) && w.mem.tasks[d].phase.turn.id == id
    && (|| (&& Settles(w.mem.tasks[d].phase, step) && id in w'.settled
            && (id !in w.settled ==> w'.settled[id] == FateOf(step)))
        || (&& step == Park(true) && id in w.disk.journal
            && w'.disk.recovery == w.disk.recovery[id := w.disk.journal[id]]))
  }

  lemma StepRemoves(w: World, d: Task, step: Step, id: TurnId)
    requires CanMove(w.mem, d, step)
    requires id in w.disk.journal && id !in MoveStep(w, d, step).disk.journal && id != NO_ID
    ensures RemovedByStep(w, MoveStep(w, d, step), d, step, id)
  {
  }

  lemma QueuingSparesRecords(w: World, ev: Event, id: TurnId)
    requires Enabled(w, ev) && Queues(ev) && id in w.disk.journal
    ensures id in Next(w, ev).disk.journal
  {
    match ev
    case Tick(now, _, _, order) => SilenceSparesDisk(w.(mem := Refreshed(w.mem, now)), order);
    case Arrive(_, _) =>
    case Accept(_, _) =>
    case Compact(_) =>
    case Replay(_) =>
  }

  /** The only ways a record leaves the journal, and what remains of it: the turn ends
      uninterrupted, it is refused in its setup or in the cleanup after a cancellation,
      the report of its failure is cut off, it is parked, an abort takes it, or the next
      start parks it. */
  lemma RecordsLeaveOnly(w: World, ev: Event, id: TurnId)
    requires id in w.disk.journal && id !in Next(w, ev).disk.journal && id != NO_ID
    ensures
      || (ev.Move? && RemovedByStep(w, Next(w, ev), ev.d, ev.step, id))
      || (ev.Abort? && id in AbortedIds(w.mem, ev.chat) && id in Next(w, ev).settled)
      || (ev.Boot? && !Replayable(w.disk.journal, ev.stale, id) && id in Next(w, ev).disk.recovery)
  {
    if Queues(ev) { QueuingSparesRecords(w, ev, id); }
    else if ev.Move? { StepRemoves(w, ev.d, ev.step, id); }
  }

  /** Exactly when a record leaves the journal. */
  ghost predicate TakesRecord(w: World, ev: Event, id: TurnId)
    requires Enabled(w, ev) && id in w.disk.journal
  {
    match ev
    case Move(d, step) =>
      && HasTurn(w.mem.tasks[d].phase) && w.mem.tasks[d].phase.turn.id == id
      && (|| step.Finish? || step.ReportRaises? || step.Refuse? || step == Park(true)
          || (step.Unwind? && w.mem.tasks[d].phase.Erring?))
    case Abort(c) =>
      || (exists t :: t in QueueOf(w.mem, c) && t.id == id)
      || (Busy(w.mem, c) && c in w.mem.inFlight && w.mem.inFlight[c] == id)
    case Boot(stale, stuck, written) => written && id !in stuck && (id in stale || w.disk.journal[id].replays >= 2)
    case _ => false
  }

  /** A record leaves by one of these events and stays at every other, whatever happens to
      its turn. */
  lemma RecordsLeaveExactly(w: World, ev: Event, id: TurnId)
    requires Enabled(w, ev) && id in w.disk.journal && id != NO_ID
    ensures id !in Next(w, ev).disk.journal <==> TakesRecord(w, ev, id)
  {
    if Queues(ev) { QueuingSparesRecords(w, ev, id); }
    else if ev.Move? { MoveTakes(w, ev.d, ev.step, id); }
    else if ev.Abort? { AbortTakes(w, ev.chat, id); }
  }

  lemma MoveTakes(w: World, d: Task, step: Step, id: TurnId)
    requires CanMove(w.mem, d, step) && id in w.disk.journal
    ensures id !in MoveStep(w, d, step).disk.journal <==> TakesRecord(w, Move(d, step), id)
  {
  }

  lemma AbortTakes(w: World, c: Chat, id: TurnId)
    requires id in w.disk.journal
    ensures id !in AbortStep(w, c).disk.journal <==> TakesRecord(w, Abort(c), id)
  {
    assert id in AbortedIds(w.mem, c) <==> TakesRecord(w, Abort(c), id);
  }

  lemma SilenceSparesDisk(w: World, order: seq<Chat>)
    ensures SilenceAll(w, order).disk == w.disk
    decreases |order|
  {
    if |order| != 0 && |w.mem.background| < IDLE_COMPACT_MAX_RUNNING {
      SilenceSparesDisk(Silence(w, order[0]), order[1..]);
    }
  }

  lemma StartTakes(w: World, stale: set<TurnId>, stuck: set<TurnId>, written: bool)
    requires w.stage.Booting?
    ensures var w' := BootStep(w, stale, stuck, written);
      && Next(w, Boot(stale, stuck, written)) == w'
      && (forall id | id in w.disk.journal ::
            var record := w.disk.journal[id];
            var again := id !in stale && record.replays < 2;
            && (again && written ==>
                  && id in w'.disk.journal && w'.disk.journal[id] == record.(replays := record.replays + 1)
                  && Turn(id, false, false) in PlanOf(w', record.chat))
            && (!again && id !in stuck ==> id in w'.disk.recovery && w'.disk.recovery[id] == record)
            && (!again && id !in stuck && written ==> id !in w'.disk.journal)
            && (!written || (!again && id in stuck) ==> id in w'.disk.journal && w'.disk.journal[id] == record))
      && (forall c, turn | turn in PlanOf(w', c) ::
            && turn == Turn(turn.id, false, false) && turn.id in w.disk.journal && w.disk.journal[turn.id].chat == c
            && written && turn.id !in stale && w.disk.journal[turn.id].replays < 2)
      && (forall c, i, j | 0 <= i < j < |PlanOf(w', c)| :: PlanOf(w', c)[i].id < PlanOf(w', c)[j].id)
  {
    TakePlanIsRight(w.disk.journal, stale);
  }

  /** A start after any run picks up every record: it is planned for replay under its
      own chat, or parked, or still in the journal because a file could not be written.
      The plan holds nothing else, and the turns of a chat are in the order of their ids. */
  lemma StartPicksUpEverything(evs: seq<Event>, stale: set<TurnId>, stuck: set<TurnId>, written: bool)
    requires Exec(evs).stage.Booting?
    ensures var w := Exec(evs);
      var w' := Next(w, Boot(stale, stuck, written));
      && w'.stage.Resuming?
      && (forall id | id in w.disk.journal ::
            var record := w.disk.journal[id];
            var again := id !in stale && record.replays < 2;
            && (again && written ==>
                  && id in w'.disk.journal && w'.disk.journal[id] == record.(replays := record.replays + 1)
                  && Turn(id, false, false) in PlanOf(w', record.chat))
            && (!again && id !in stuck ==> id in w'.disk.recovery && w'.disk.recovery[id] == record)
            && (!again && id !in stuck && written ==> id !in w'.disk.journal)
            && (!written || (!again && id in stuck) ==> id in w'.disk.journal && w'.disk.journal[id] == record))
      && (forall c, turn | turn in PlanOf(w', c) ::
            && turn == Turn(turn.id, false, false) && turn.id in w.disk.journal && w.disk.journal[turn.id].chat == c
            && written && turn.id !in stale && w.disk.journal[turn.id].replays < 2)
      && (forall c, i, j | 0 <= i < j < |PlanOf(w', c)| :: PlanOf(w', c)[i].id < PlanOf(w', c)[j].id)
  {
    StartTakes(Exec(evs), stale, stuck, written);
  }

  /** Aborting a turn removes its record exactly when the turn is already in flight.
      During setup the record stays, and the next start replays the aborted turn. */
  lemma AbortForgetsExactlyInFlight(evs: seq<Event>, d: Task)
    requires var w := Exec(evs);
      && d in w.mem.tasks && HasTurn(w.mem.tasks[d].phase)
      && w.mem.tasks[d].phase.turn.id in w.disk.journal
    ensures var w := Exec(evs);
      InFlight(w.mem.tasks[d].phase) <==>
      w.mem.tasks[d].phase.turn.id !in AbortStep(w, w.mem.tasks[d].chat).disk.journal
  {
    AllHold(evs);
    var w := Exec(evs);
    var c, id := w.mem.tasks[d].chat, w.mem.tasks[d].phase.turn.id;
    if id in AbortedIds(w.mem, c) { AbortSparesWaiting(w, c, id); }
  }
}
