/** What the turn engine keeps over every run: order, crash safety, wake-ups. */
module TurnRuns {
  import opened TurnEngine

  // --- one drain per chat ---

  ghost predicate TasksOk(m: Memory) {
    && (forall d | d in m.tasks ::
          && d < m.spawned
          && m.tasks[d].chat in m.running
          && m.running[m.tasks[d].chat] == d)
    && (forall c | c in m.running && m.running[c] in m.tasks :: m.tasks[m.running[c]].chat == c)
    && (forall c | c in m.running :: m.running[c] < m.spawned)
  }

  /** The in-flight table holds exactly the turns whose agent is at work. */
  ghost predicate FlightOk(m: Memory) {
    && (forall c | c in m.inFlight ::
          && Busy(m, c)
          && InFlight(m.tasks[m.running[c]].phase)
          && m.tasks[m.running[c]].phase.turn.id == m.inFlight[c])
    && (forall d | d in m.tasks && InFlight(m.tasks[d].phase) :: m.tasks[d].chat in m.inFlight)
  }

  ghost predicate TaskInv(w: World) {
    && TasksOk(w.mem) && FlightOk(w.mem)
    && (w.stage.Booting? ==> w.mem == NOTHING && |w.waiting| == 0 && |w.puts| == 0)
  }

  lemma TaskPut(m: Memory, c: Chat, turn: Turn)
    requires TasksOk(m) && FlightOk(m)
    ensures TasksOk(Put(m, c, turn)) && FlightOk(Put(m, c, turn))
  {
    var m' := Put(m, c, turn);
    if !Busy(m, c) {
      assert m.spawned !in m.tasks && c !in m.inFlight;
      assert TasksOk(m');
      assert forall b | b in m.inFlight :: m'.running[b] == m.running[b] && b != c;
    }
  }

  lemma TaskSilence(w: World, order: seq<Chat>)
    requires TasksOk(w.mem) && FlightOk(w.mem)
    ensures TasksOk(SilenceAll(w, order).mem) && FlightOk(SilenceAll(w, order).mem)
    ensures SilenceAll(w, order).stage == w.stage
    decreases |order|
  {
    if |order| != 0 && |w.mem.background| < IDLE_COMPACT_MAX_RUNNING {
      var c := order[0];
      TaskPut(Claimed(w, c).mem, c, SILENT);
      TaskSilence(Silence(w, c), order[1..]);
    }
  }

  lemma MoveKeepsTasks(m: Memory, d: Task, journaled: bool, step: Step)
    requires TasksOk(m) && CanMove(m, d, step)
    ensures TasksOk(MoveMemory(m, d, journaled, step))
  {
  }

  /** The in-flight entry of a chat comes and goes with the phase. */
  lemma FlightFollows(flight: map<Chat, TurnId>, c: Chat, p: Phase, journaled: bool, cancelled: bool, step: Step)
    requires StepEnabled(p, cancelled, step) && (InFlight(p) <==> c in flight)
    requires c in flight ==> p.turn.id == flight[c]
    ensures var q, after := After(p, journaled, step), FlightAfter(flight, c, p, step);
      && (InFlight(q) <==> c in after) && (c in after ==> q.turn.id == after[c])
      && forall b | b != c :: (b in after <==> b in flight) && (b in flight ==> after[b] == flight[b])
  {
  }

  lemma TaskMove(m: Memory, d: Task, journaled: bool, step: Step)
    requires TasksOk(m) && FlightOk(m) && CanMove(m, d, step)
    ensures TasksOk(MoveMemory(m, d, journaled, step)) && FlightOk(MoveMemory(m, d, journaled, step))
  {
    var c := m.tasks[d].chat;
    MoveKeepsTasks(m, d, journaled, step);
    assert c in m.inFlight <==> InFlight(m.tasks[d].phase);
    FlightFollows(m.inFlight, c, m.tasks[d].phase, journaled, m.tasks[d].cancelled, step);
  }

  lemma TaskDone(m: Memory, d: Task)
    requires TasksOk(m) && FlightOk(m) && d in m.tasks && !InFlight(m.tasks[d].phase)
    ensures TasksOk(Done(m, d)) && FlightOk(Done(m, d))
  {
    assert m.tasks[d].chat !in m.inFlight;
  }

  lemma TaskTake(m: Memory, d: Task)
    requires TasksOk(m) && FlightOk(m) && d in m.tasks && m.tasks[d].phase.Idle?
    ensures TasksOk(TakeMemory(m, d)) && FlightOk(TakeMemory(m, d))
  {
    var c := m.tasks[d].chat;
    assert c !in m.inFlight;
    if |QueueOf(m, c)| == 0 { TaskDone(m, d); }
  }

  lemma TaskAbort(m: Memory, c: Chat)
    requires TasksOk(m) && FlightOk(m)
    ensures TasksOk(AbortMemory(m, c)) && FlightOk(AbortMemory(m, c))
  {
  }

  lemma TaskShutdown(m: Memory)
    requires TasksOk(m) && FlightOk(m)
    ensures TasksOk(ShutdownMemory(m)) && FlightOk(ShutdownMemory(m))
  {
  }

  /** The steps of a drain task. */
  predicate OfTask(ev: Event) { ev.Take? || ev.Move? || ev.End? }

  /** The events that queue a turn. */
  predicate Queues(ev: Event) { ev.Arrive? || ev.Accept? || ev.Compact? || ev.Tick? || ev.Replay? }

  lemma TaskTick(w: World, now: int, order: seq<Chat>)
    requires TaskInv(w)
    ensures var w' := SilenceAll(w.(mem := Refreshed(w.mem, now)), order);
      TasksOk(w'.mem) && FlightOk(w'.mem) && w'.stage == w.stage
  {
    assert TasksOk(Refreshed(w.mem, now)) && FlightOk(Refreshed(w.mem, now));
    TaskSilence(w.(mem := Refreshed(w.mem, now)), order);
  }

  lemma TaskArrive(w: World, c: Chat, due: bool)
    requires TaskInv(w)
    ensures var w' := ArriveStep(w, c, due); TasksOk(w'.mem) && FlightOk(w'.mem) && w'.stage == w.stage
  {
    TaskPut(Consumed(w, c).mem, c, COMPACTION);
  }

  lemma TaskAccept(w: World, i: nat, id: TurnId)
    requires TaskInv(w) && i < |w.waiting|
    ensures var w' := AcceptStep(w, i, id); TasksOk(w'.mem) && FlightOk(w'.mem) && w'.stage == w.stage
  {
    TaskPut(w.mem, w.waiting[i].chat, Turn(id, false, false));
  }

  lemma TaskReplay(w: World, c: Chat)
    requires TaskInv(w) && |PlanOf(w, c)| != 0
    ensures var w' := ReplayStep(w, c); TasksOk(w'.mem) && FlightOk(w'.mem) && w'.stage == w.stage
  {
    TaskPut(w.mem, c, w.plan[c][0]);
  }

  lemma TaskQueues(w: World, ev: Event)
    requires TaskInv(w) && Enabled(w, ev) && Queues(ev)
    ensures TasksOk(Next(w, ev).mem) && FlightOk(Next(w, ev).mem) && !Next(w, ev).stage.Booting?
  {
    match ev
    case Arrive(c, threshold) => TaskArrive(w, c, OverThreshold(w.mem.context, c, threshold));
    case Accept(i, id) => TaskAccept(w, i, id);
    case Compact(c) => TaskPut(w.mem, c, COMPACTION);
    case Tick(now, _, _, order) => TaskTick(w, now, order);
    case Replay(c) => TaskReplay(w, c);
  }

  lemma TaskOwn(w: World, ev: Event)
    requires TaskInv(w) && Enabled(w, ev) && OfTask(ev)
    ensures TaskInv(Next(w, ev))
  {
    match ev
    case Take(d) => TaskTake(w.mem, d);
    case Move(d, step) => TaskMove(w.mem, d, Journaled(w, w.mem.tasks[d].phase), step);
    case End(d, released) => TaskDone(w.mem, d);
  }

  lemma TaskRest(w: World, ev: Event)
    requires TaskInv(w) && Enabled(w, ev) && !Queues(ev)
    ensures TaskInv(Next(w, ev))
  {
    if OfTask(ev) { TaskOwn(w, ev); } else { TaskOther(w, ev); }
  }

  lemma TaskOther(w: World, ev: Event)
    requires TaskInv(w) && Enabled(w, ev) && !Queues(ev) && !OfTask(ev)
    ensures TaskInv(Next(w, ev))
  {
    match ev
    case Abort(c) => TaskAbort(w.mem, c);
    case Shutdown => TaskShutdown(w.mem);
    case SessionChanges(_) =>
    case Crash =>
    case Boot(_, _, _) =>
    case Serve =>
  }

  lemma TaskStep(w: World, ev: Event)
    requires TaskInv(w)
    ensures TaskInv(Next(w, ev))
  {
    if Enabled(w, ev) {
      if Queues(ev) { TaskQueues(w, ev); } else { TaskRest(w, ev); }
    }
  }

  lemma {:induction false} TaskHolds(evs: seq<Event>)
    ensures TaskInv(Exec(evs))
  {
    if evs != [] {
      TaskHolds(evs[..|evs| - 1]);
      TaskStep(Exec(evs[..|evs| - 1]), evs[|evs| - 1]);
    }
  }

  /** Each chat has at most one drain task that is not done. */
  lemma OneDrainPerChat(evs: seq<Event>, d1: Task, d2: Task)
    requires var m := Exec(evs).mem; d1 in m.tasks && d2 in m.tasks && m.tasks[d1].chat == m.tasks[d2].chat
    ensures d1 == d2
  {
    TaskHolds(evs);
  }

  // --- the order of turns ---

  predicate Ascending(s: seq<nat>) { forall i, j | 0 <= i < j < |s| :: s[i] < s[j] }

  /** One chat's tickets: those started, then those waiting in its queue, in the order
      in which they were queued. */
  ghost predicate ChatOk(c: Chat, started: seq<nat>, line: seq<nat>, queue: seq<Turn>, puts: seq<PutRecord>) {
    && |line| == |queue|
    && Ascending(started + line)
    && (forall i | 0 <= i < |started| :: started[i] < |puts| && puts[started[i]].chat == c)
    && (forall i | 0 <= i < |line| :: line[i] < |puts| && puts[line[i]] == PutRecord(c, queue[i]))
  }

  lemma ChatPut(c: Chat, started: seq<nat>, line: seq<nat>, queue: seq<Turn>, puts: seq<PutRecord>, r: PutRecord)
    requires ChatOk(c, started, line, queue, puts)
    ensures ChatOk(c, started, line, queue, puts + [r])
    ensures r.chat == c ==> ChatOk(c, started, line + [|puts|], queue + [r.turn], puts + [r])
  {
    assert started + (line + [|puts|]) == (started + line) + [|puts|];
    forall k | k in started + line ensures k < |puts| {}
  }

  lemma ChatTake(c: Chat, started: seq<nat>, line: seq<nat>, queue: seq<Turn>, puts: seq<PutRecord>)
    requires ChatOk(c, started, line, queue, puts) && |queue| != 0
    ensures |line| != 0 && ChatOk(c, started + [line[0]], line[1..], queue[1..], puts)
  {
    assert (started + [line[0]]) + line[1..] == started + line;
  }

  lemma ChatClear(c: Chat, started: seq<nat>, line: seq<nat>, queue: seq<Turn>, puts: seq<PutRecord>)
    requires ChatOk(c, started, line, queue, puts)
    ensures ChatOk(c, started, [], [], puts)
  {
    assert started == (started + line)[..|started|];
  }

  ghost predicate LinesOk(w: World) {
    forall c :: ChatOk(c, At(w.starts, c), At(w.lines, c), At(w.mem.queues, c), w.puts)
  }

  /** Every ticket was started, is waiting, or was dropped by an abort: one of these. */
  ghost predicate CoverOk(w: World) {
    && (forall k: nat | k < |w.puts| ::
          k in At(w.starts, w.puts[k].chat) || k in At(w.lines, w.puts[k].chat) || k in w.dropped)
    && (forall k | k in w.dropped ::
          k < |w.puts| && k !in At(w.starts, w.puts[k].chat) && k !in At(w.lines, w.puts[k].chat))
  }

  /** A task at work holds the ticket it took. */
  ghost predicate HeldOk(w: World) {
    forall d | d in w.mem.tasks && HasTurn(w.mem.tasks[d].phase) ::
      && d in w.held && w.held[d] < |w.puts|
      && w.puts[w.held[d]] == PutRecord(w.mem.tasks[d].chat, w.mem.tasks[d].phase.turn)
      && w.held[d] in At(w.starts, w.mem.tasks[d].chat)
  }

  ghost predicate BookInv(w: World) { LinesOk(w) && CoverOk(w) && HeldOk(w) }

  lemma LinesEnqueued(w: World, c: Chat, turn: Turn)
    requires LinesOk(w)
    ensures LinesOk(Enqueued(w, c, turn))
  {
    var w' := Enqueued(w, c, turn);
    forall b ensures ChatOk(b, At(w'.starts, b), At(w'.lines, b), At(w'.mem.queues, b), w'.puts) {
      ChatPut(b, At(w.starts, b), At(w.lines, b), At(w.mem.queues, b), w.puts, PutRecord(c, turn));
    }
  }

  lemma CoverEnqueued(w: World, c: Chat, turn: Turn)
    requires LinesOk(w) && CoverOk(w)
    ensures CoverOk(Enqueued(w, c, turn))
  {
    var w' := Enqueued(w, c, turn);
    forall k: nat | k < |w'.puts|
      ensures k in At(w'.starts, w'.puts[k].chat) || k in At(w'.lines, w'.puts[k].chat) || k in w'.dropped
    {
      if k == |w.puts| { assert At(w'.lines, c)[|At(w.lines, c)|] == k; }
      else {
        assert w'.puts[k] == w.puts[k];
        assert forall i | 0 <= i < |At(w.lines, c)| :: At(w'.lines, c)[i] == At(w.lines, c)[i];
      }
    }
  }

  lemma BookEnqueued(w: World, c: Chat, turn: Turn)
    requires TasksOk(w.mem) && BookInv(w)
    ensures BookInv(Enqueued(w, c, turn))
  {
    var w' := Enqueued(w, c, turn);
    LinesEnqueued(w, c, turn);
    CoverEnqueued(w, c, turn);
    assert forall d | d in w'.mem.tasks && HasTurn(w'.mem.tasks[d].phase) ::
      d in w.mem.tasks && w'.mem.tasks[d] == w.mem.tasks[d];
    assert forall k | 0 <= k < |w.puts| :: w'.puts[k] == w.puts[k];
  }

  lemma LinesTake(w: World, d: Task)
    requires LinesOk(w) && d in w.mem.tasks && |QueueOf(w.mem, w.mem.tasks[d].chat)| != 0
    ensures LinesOk(TakeStep(w, d))
    ensures |At(w.lines, w.mem.tasks[d].chat)| != 0
  {
    var c := w.mem.tasks[d].chat;
    var w' := TakeStep(w, d);
    ChatTake(c, At(w.starts, c), At(w.lines, c), At(w.mem.queues, c), w.puts);
    forall b ensures ChatOk(b, At(w'.starts, b), At(w'.lines, b), At(w'.mem.queues, b), w'.puts) {
      if b != c { assert ChatOk(b, At(w.starts, b), At(w.lines, b), At(w.mem.queues, b), w.puts); }
    }
  }

  /** The ticket taken moves from the waiting to the started. */
  lemma TakenTicket(started: seq<nat>, line: seq<nat>, k: nat)
    requires |line| != 0 && Ascending(started + line)
    ensures k in started + [line[0]] <==> k in started || k == line[0]
    ensures k in line[1..] <==> k in line && k != line[0]
  {
    assert forall i | 0 <= i < |line| :: (started + line)[|started| + i] == line[i];
    if k in line && k != line[0] {
      var i :| 0 <= i < |line| && line[i] == k;
      assert line[1..][i - 1] == k;
    }
  }

  /** How taking moves one ticket of one chat. */
  lemma TakeTickets(w: World, d: Task, b: Chat, k: nat)
    requires LinesOk(w) && d in w.mem.tasks && |QueueOf(w.mem, w.mem.tasks[d].chat)| != 0
    ensures var c := w.mem.tasks[d].chat;
      var w' := TakeStep(w, d);
      && |At(w.lines, c)| != 0
      && (k in At(w'.starts, b) <==> k in At(w.starts, b) || (b == c && k == At(w.lines, c)[0]))
      && (k in At(w'.lines, b) <==> k in At(w.lines, b) && (b != c || k != At(w.lines, c)[0]))
  {
    var c := w.mem.tasks[d].chat;
    assert ChatOk(c, At(w.starts, c), At(w.lines, c), At(w.mem.queues, c), w.puts);
    if b == c { TakenTicket(At(w.starts, c), At(w.lines, c), k); }
  }

  lemma CoverTake(w: World, d: Task)
    requires LinesOk(w) && CoverOk(w) && d in w.mem.tasks && |QueueOf(w.mem, w.mem.tasks[d].chat)| != 0
    ensures CoverOk(TakeStep(w, d))
  {
    var c := w.mem.tasks[d].chat;
    assert ChatOk(c, At(w.starts, c), At(w.lines, c), At(w.mem.queues, c), w.puts);
    var first := At(w.lines, c)[0];
    assert first in At(w.lines, c) && w.puts[first].chat == c;
    forall k: nat | k < |w.puts| ensures
      var w' := TakeStep(w, d);
      && (k in At(w'.starts, w.puts[k].chat) || k in At(w'.lines, w.puts[k].chat) || k in w.dropped)
      && (k in w.dropped ==> k !in At(w'.starts, w.puts[k].chat) && k !in At(w'.lines, w.puts[k].chat))
    {
      TakeTickets(w, d, w.puts[k].chat, k);
    }
  }

  lemma HeldTake(w: World, d: Task)
    requires TasksOk(w.mem) && LinesOk(w) && HeldOk(w) && d in w.mem.tasks
    requires |QueueOf(w.mem, w.mem.tasks[d].chat)| != 0
    ensures HeldOk(TakeStep(w, d))
  {
    var c := w.mem.tasks[d].chat;
    assert ChatOk(c, At(w.starts, c), At(w.lines, c), At(w.mem.queues, c), w.puts);
    var w' := TakeStep(w, d);
    forall e | e in w'.mem.tasks && HasTurn(w'.mem.tasks[e].phase)
      ensures && e in w'.held && w'.held[e] < |w'.puts|
        && w'.puts[w'.held[e]] == PutRecord(w'.mem.tasks[e].chat, w'.mem.tasks[e].phase.turn)
        && w'.held[e] in At(w'.starts, w'.mem.tasks[e].chat)
    {
      TakeTickets(w, d, w'.mem.tasks[e].chat, w'.held[e]);
    }
  }

  lemma BookTake(w: World, d: Task)
    requires TasksOk(w.mem) && BookInv(w) && d in w.mem.tasks && w.mem.tasks[d].phase.Idle?
    ensures BookInv(TakeStep(w, d))
  {
    if |QueueOf(w.mem, w.mem.tasks[d].chat)| != 0 {
      LinesTake(w, d);
      CoverTake(w, d);
      HeldTake(w, d);
    } else {
      BookFrame(w, TakeStep(w, d));
    }
  }

  lemma StartedNotWaiting(started: seq<nat>, line: seq<nat>, k: nat)
    requires Ascending(started + line) && k in line
    ensures k !in started
  {
    var i :| 0 <= i < |line| && line[i] == k;
    assert (started + line)[|started| + i] == k;
    assert forall j | 0 <= j < |started| :: (started + line)[j] == started[j];
  }

  lemma LinesAbort(w: World, c: Chat)
    requires LinesOk(w)
    ensures LinesOk(AbortStep(w, c))
  {
    var w' := AbortStep(w, c);
    assert ChatOk(c, At(w.starts, c), At(w.lines, c), At(w.mem.queues, c), w.puts);
    ChatClear(c, At(w.starts, c), At(w.lines, c), At(w.mem.queues, c), w.puts);
    forall b ensures ChatOk(b, At(w'.starts, b), At(w'.lines, b), At(w'.mem.queues, b), w'.puts) {
      if b != c { assert ChatOk(b, At(w.starts, b), At(w.lines, b), At(w.mem.queues, b), w.puts); }
    }
  }

  lemma CoverAbort(w: World, c: Chat)
    requires LinesOk(w) && CoverOk(w)
    ensures CoverOk(AbortStep(w, c))
  {
    assert ChatOk(c, At(w.starts, c), At(w.lines, c), At(w.mem.queues, c), w.puts);
    forall k | k in At(w.lines, c) ensures k < |w.puts| && w.puts[k].chat == c && k !in At(w.starts, c) {
      StartedNotWaiting(At(w.starts, c), At(w.lines, c), k);
    }
  }

  lemma BookAbort(w: World, c: Chat)
    requires BookInv(w)
    ensures BookInv(AbortStep(w, c))
  {
    LinesAbort(w, c);
    CoverAbort(w, c);
  }

  lemma BookSilence(w: World, order: seq<Chat>)
    requires TasksOk(w.mem) && FlightOk(w.mem) && BookInv(w)
    ensures BookInv(SilenceAll(w, order))
    decreases |order|
  {
    if |order| != 0 && |w.mem.background| < IDLE_COMPACT_MAX_RUNNING {
      var c := order[0];
      BookFrame(w, Claimed(w, c));
      BookEnqueued(Claimed(w, c), c, SILENT);
      TaskPut(Claimed(w, c).mem, c, SILENT);
      BookSilence(Silence(w, c), order[1..]);
    }
  }

  /** Tasks move, nothing is queued or taken. */
  lemma BookFrame(w: World, w': World)
    requires BookInv(w) && w'.mem.queues == w.mem.queues && w'.puts == w.puts && w'.lines == w.lines
    requires w'.starts == w.starts && w'.dropped == w.dropped
    requires forall d | d in w'.mem.tasks && HasTurn(w'.mem.tasks[d].phase) ::
      && d in w.mem.tasks && HasTurn(w.mem.tasks[d].phase) && w'.mem.tasks[d].chat == w.mem.tasks[d].chat
      && w'.mem.tasks[d].phase.turn == w.mem.tasks[d].phase.turn
      && (d in w.held ==> d in w'.held && w'.held[d] == w.held[d])
    ensures BookInv(w')
  {
  }

  lemma BookArrive(w: World, c: Chat, due: bool)
    requires TaskInv(w) && BookInv(w)
    ensures BookInv(ArriveStep(w, c, due))
  {
    if due {
      BookFrame(w, Consumed(w, c));
      BookEnqueued(Consumed(w, c), c, COMPACTION);
      BookFrame(Enqueued(Consumed(w, c), c, COMPACTION), ArriveStep(w, c, due));
    } else {
      BookFrame(w, ArriveStep(w, c, due));
    }
  }

  lemma BookTick(w: World, now: int, order: seq<Chat>)
    requires TaskInv(w) && BookInv(w)
    ensures BookInv(SilenceAll(w.(mem := Refreshed(w.mem, now)), order))
  {
    var w1 := w.(mem := Refreshed(w.mem, now));
    BookFrame(w, w1);
    assert TasksOk(w1.mem) && FlightOk(w1.mem);
    BookSilence(w1, order);
  }

  lemma BookReplay(w: World, c: Chat)
    requires TaskInv(w) && BookInv(w) && |PlanOf(w, c)| != 0
    ensures BookInv(ReplayStep(w, c))
  {
    BookEnqueued(w, c, w.plan[c][0]);
    BookFrame(Enqueued(w, c, w.plan[c][0]), ReplayStep(w, c));
  }

  lemma BookQueues(w: World, ev: Event)
    requires TaskInv(w) && BookInv(w) && Enabled(w, ev) && Queues(ev)
    ensures BookInv(Next(w, ev))
  {
    match ev
    case Arrive(c, threshold) => BookArrive(w, c, OverThreshold(w.mem.context, c, threshold));
    case Accept(i, id) => BookAccept(w, i, id);
    case Compact(c) => BookEnqueued(w, c, COMPACTION);
    case Tick(now, _, _, order) => BookTick(w, now, order);
    case Replay(c) => BookReplay(w, c);
  }

  lemma BookAccept(w: World, i: nat, id: TurnId)
    requires TaskInv(w) && BookInv(w) && i < |w.waiting|
    ensures BookInv(AcceptStep(w, i, id))
  {
    var c := w.waiting[i].chat;
    BookEnqueued(w, c, Turn(id, false, false));
    BookFrame(Enqueued(w, c, Turn(id, false, false)), AcceptStep(w, i, id));
  }

  /** A step keeps the turn its task holds. */
  lemma MoveKeepsTurns(m: Memory, d: Task, journaled: bool, step: Step, e: Task)
    requires CanMove(m, d, step)
    ensures var m' := MoveMemory(m, d, journaled, step);
      e in m'.tasks && HasTurn(m'.tasks[e].phase) ==>
        && e in m.tasks && HasTurn(m.tasks[e].phase) && m'.tasks[e].chat == m.tasks[e].chat
        && m'.tasks[e].phase.turn == m.tasks[e].phase.turn
  {
  }

  lemma BookMove(w: World, d: Task, step: Step)
    requires TaskInv(w) && BookInv(w) && CanMove(w.mem, d, step)
    ensures BookInv(MoveStep(w, d, step))
  {
    forall e { MoveKeepsTurns(w.mem, d, Journaled(w, w.mem.tasks[d].phase), step, e); }
    BookFrame(w, MoveStep(w, d, step));
  }

  lemma BookEnd(w: World, d: Task, released: bool)
    requires TaskInv(w) && BookInv(w) && CanEnd(w.mem, d)
    ensures BookInv(EndStep(w, d, released))
  {
    BookFrame(w, EndStep(w, d, released));
  }

  lemma BookShutdown(w: World)
    requires TaskInv(w) && BookInv(w)
    ensures BookInv(ShutdownStep(w))
  {
    BookFrame(w, ShutdownStep(w));
  }

  lemma BookRest(w: World, ev: Event)
    requires TaskInv(w) && BookInv(w) && Enabled(w, ev) && !Queues(ev)
    ensures BookInv(Next(w, ev))
  {
    match ev
    case Take(d) => BookTake(w, d);
    case Move(d, step) => BookMove(w, d, step);
    case End(d, released) => BookEnd(w, d, released);
    case Abort(c) => BookAbort(w, c);
    case Shutdown => BookShutdown(w);
    case SessionChanges(_) => BookFrame(w, Next(w, ev));
    case Crash => BookFresh(w);
    case Boot(_, _, _) => BookFrame(w, Next(w, ev));
    case Serve => BookFrame(w, Next(w, ev));
  }

  lemma BookFresh(w: World)
    ensures BookInv(CrashStep(w))
  {
  }

  lemma {:induction false} BookHolds(evs: seq<Event>)
    ensures BookInv(Exec(evs))
  {
    if evs != [] {
      var past := evs[..|evs| - 1];
      BookHolds(past);
      TaskHolds(past);
      var ev := evs[|evs| - 1];
      if Enabled(Exec(past), ev) {
        if Queues(ev) { BookQueues(Exec(past), ev); } else { BookRest(Exec(past), ev); }
      }
    }
  }

  /** Turns of a chat start in exactly the order in which they were queued, each at
      most once, through aborts and failures; what waits comes after what started. */
  lemma TurnsStartInOrder(evs: seq<Event>, c: Chat)
    ensures var w := Exec(evs);
      && Ascending(At(w.starts, c) + At(w.lines, c))
      && |At(w.lines, c)| == |QueueOf(w.mem, c)|
      && (forall i | 0 <= i < |At(w.starts, c)| ::
            At(w.starts, c)[i] < |w.puts| && w.puts[At(w.starts, c)[i]].chat == c)
      && (forall i | 0 <= i < |At(w.lines, c)| ::
            At(w.lines, c)[i] < |w.puts| && w.puts[At(w.lines, c)[i]] == PutRecord(c, QueueOf(w.mem, c)[i]))
  {
    BookHolds(evs);
    var w := Exec(evs);
    assert ChatOk(c, At(w.starts, c), At(w.lines, c), At(w.mem.queues, c), w.puts);
  }

  /** No queued turn is skipped: it was started, is waiting, or an abort dropped it. */
  lemma NoTurnIsSkipped(evs: seq<Event>, k: nat)
    requires k < |Exec(evs).puts|
    ensures var w := Exec(evs);
      var c := w.puts[k].chat;
      && (k in At(w.starts, c) || k in At(w.lines, c) || k in w.dropped)
      && (k in w.dropped ==> k !in At(w.starts, c) && k !in At(w.lines, c))
      && (k in At(w.lines, c) ==> k !in At(w.starts, c))
  {
    BookHolds(evs);
    var w := Exec(evs);
    var c := w.puts[k].chat;
    assert ChatOk(c, At(w.starts, c), At(w.lines, c), At(w.mem.queues, c), w.puts);
    if k in At(w.lines, c) { StartedNotWaiting(At(w.starts, c), At(w.lines, c), k); }
  }
}
