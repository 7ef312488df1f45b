/** The chat turn engine as a step machine: queues, drain tasks, the turn journal,
    abort, parking and the two automatic compactions, in every interleaving and
    through any number of crashes. An event is a stretch without a real await. */
module TurnEngine {
  import opened Options

  type Chat = nat
  type Task = nat

  /** A journal id; NO_ID is the empty id of a turn nothing journaled. */
  type TurnId = nat
  const NO_ID: TurnId := 0

  const MAX_REPLAYS := 2
  const IDLE_COMPACT_MAX_RUNNING := 2

  datatype Turn = Turn(id: TurnId, compact: bool, background: bool)

  const COMPACTION := Turn(NO_ID, true, false)
  const SILENT := Turn(NO_ID, true, true)

  /** Where a drain task stands, and with which turn.
      Idle       at the top of the loop
      Starting   the turn is taken, its account not resolved
      Preparing  marked dispatched, not yet in the in-flight table
      Running    in flight, the agent at work; Compacting: a compaction, once it has
                 dropped the size reading; Replying: the reply being sent
      Erring     in flight, the agent failed, the error being sent
      Tidying    the record is settled; per-turn resources being released
      Breaking   the same, with the error of the failure report on its way up
      Refusing   the record is dropped over an account or OS error, the notice being sent
      Closing    the frontend's completion mark being set
      Failing    an exception is on its way up to the drain loop
      Retiring   the failed turn was parked; its notices being sent
      Unwinding  cancelled; the finally blocks are running, `guarded` by the arm that
                 catches account and OS errors */
  datatype Phase =
    | Idle
    | Starting(turn: Turn)
    | Preparing(turn: Turn)
    | Running(turn: Turn)
    | Compacting(turn: Turn)
    | Replying(turn: Turn)
    | Erring(turn: Turn)
    | Tidying(turn: Turn)
    | Breaking(turn: Turn)
    | Refusing(turn: Turn)
    | Closing(turn: Turn)
    | Failing(turn: Turn)
    | Retiring
    | Unwinding(turn: Turn, guarded: bool)

  predicate InFlight(p: Phase) { p.Running? || p.Compacting? || p.Replying? || p.Erring? }

  datatype Drain = Drain(chat: Chat, phase: Phase, cancelled: bool)

  datatype Usage = Usage(tokens: nat, window: int)
  datatype IdleReading = IdleReading(endedAt: int, tokens: nat, ttl: int)

  /** What one process holds. `tasks` are the drain tasks that are not done. */
  datatype Memory = Memory(
    queues: map<Chat, seq<Turn>>,
    running: map<Chat, Task>,
    tasks: map<Task, Drain>,
    spawned: nat,
    inFlight: map<Chat, TurnId>,
    context: map<Chat, Usage>,
    idle: map<Chat, IdleReading>,
    background: set<Chat>)

  datatype Pending = Pending(chat: Chat, dispatched: bool, replays: nat)

  /** What survives a crash: the journal, and the file of parked turns. */
  datatype Disk = Disk(journal: map<TurnId, Pending>, recovery: map<TurnId, Pending>)

  const NOTHING := Memory(map[], map[], map[], 0, map[], map[], map[], {})

  predicate Busy(m: Memory, c: Chat) { c in m.running && m.running[c] in m.tasks }

  /** The sequence a table holds for a chat, empty when it holds none. */
  function At<T>(table: map<Chat, seq<T>>, c: Chat): seq<T> { if c in table then table[c] else [] }

  function QueueOf(m: Memory, c: Chat): seq<Turn> { At(m.queues, c) }

  /** `put_nowait`, and a new drain task unless the chat has one. */
  function Put(m: Memory, c: Chat, turn: Turn): Memory {
    var m1 := m.(queues := m.queues[c := QueueOf(m, c) + [turn]]);
    if Busy(m, c) then m1
    else m1.(tasks := m1.tasks[m1.spawned := Drain(c, Idle, false)],
             running := m1.running[c := m1.spawned],
             spawned := m1.spawned + 1)
  }

  /** The task's coroutine returns: the task is done and leaves the running table. */
  function Done(m: Memory, d: Task): Memory
    requires d in m.tasks
  {
    var c := m.tasks[d].chat;
    m.(tasks := m.tasks - {d},
       running := if c in m.running && m.running[c] == d then m.running - {c} else m.running)
  }

  /** The auto-compact gate: `threshold` percent of the window, 0 for off. */
  predicate OverThreshold(context: map<Chat, Usage>, c: Chat, threshold: nat) {
    && threshold != 0
    && c in context
    && context[c].window > 0
    && context[c].tokens * 100 >= threshold * context[c].window
  }

  // --- idle compaction ---

  predicate Expired(r: IdleReading, now: int) { now - r.endedAt >= r.ttl }

  /** Inside the window before the cache expires, big enough, and nothing to do. */
  predicate DueForSilence(m: Memory, c: Chat, now: int, threshold: nat, lead: int) {
    && c in m.idle
    && !Expired(m.idle[c], now)
    && m.idle[c].tokens >= threshold
    && m.idle[c].ttl > lead
    && now - m.idle[c].endedAt >= m.idle[c].ttl - lead
    && !Busy(m, c)
    && QueueOf(m, c) == []
  }

  function ExpiryOf(m: Memory, c: Chat): int
    requires c in m.idle
  {
    m.idle[c].endedAt + m.idle[c].ttl
  }

  predicate ExpiresBefore(m: Memory, c: Chat, d: Chat)
    requires c in m.idle && d in m.idle
  {
    ExpiryOf(m, c) < ExpiryOf(m, d) || (ExpiryOf(m, c) == ExpiryOf(m, d) && c < d)
  }

  /** `order` lists exactly the due chats, the nearest cache expiry first. */
  ghost predicate DueOrder(m: Memory, now: int, threshold: nat, lead: int, order: seq<Chat>) {
    && (forall c :: c in order <==> DueForSilence(m, c, now, threshold, lead))
    && (forall i, j | 0 <= i < j < |order| ::
          order[i] in m.idle && order[j] in m.idle && ExpiresBefore(m, order[i], order[j]))
  }

  /** The tables once the lapsed readings and the finished chats are gone. */
  function Refreshed(m: Memory, now: int): Memory {
    m.(background := (set c | c in m.background && Busy(m, c)),
       idle := map c | c in m.idle && !Expired(m.idle[c], now) :: m.idle[c])
  }

  function SilenceMemory(m: Memory, c: Chat): Memory {
    Put(m.(idle := m.idle - {c}, context := m.context - {c}, background := m.background + {c}), c, SILENT)
  }

  // --- the world ---

  /** How a turn without a record ended.
      Answered    its reply, or the report of its failure, was sent without an error
      Aborted     somebody stopped it
      Refused     it met an account or OS error, and the notice of that was sent
      Untold      the same, the notice not sent: its record is dropped before
      Unreported  the report of its failure was cut off, by a cancellation or an error */
  datatype Fate = Answered | Aborted | Refused | Untold | Unreported

  /** The record is gone, and nothing said so to whoever asked. */
  predicate Lost(fate: Fate) { fate.Untold? || fate.Unreported? }

  datatype Note = AutoQueued(chat: Chat) | ReadingTaken(chat: Chat) | Dispatched(chat: Chat)

  datatype PutRecord = PutRecord(chat: Chat, turn: Turn)

  /** A message between its arrival and its acceptance. `after` is the ticket of the
      compaction it triggered, if any. */
  datatype Waiting = Waiting(chat: Chat, after: Option<nat>)

  datatype Stage = Booting | Resuming | Serving | Stopping

  /** The process, the disk, and the history of both. A ticket is the position of a
      turn in `puts`, the order in which this process queued its turns. `lines` are
      the tickets waiting per chat, `starts` the tickets taken per chat, `held` the ticket each
      task works on, `dropped` those an abort threw away. `cut` are the chats an abort or
      a shutdown touched and for which no new drain was started since. `accepted` and
      `settled` outlive the process, as does `notes`. */
  datatype World = World(
    mem: Memory,
    disk: Disk,
    stage: Stage,
    waiting: seq<Waiting>,
    plan: map<Chat, seq<Turn>>,
    puts: seq<PutRecord>,
    lines: map<Chat, seq<nat>>,
    starts: map<Chat, seq<nat>>,
    held: map<Task, nat>,
    dropped: set<nat>,
    cut: set<Chat>,
    accepted: map<TurnId, Chat>,
    settled: map<TurnId, Fate>,
    messages: seq<(nat, nat)>,
    notes: seq<Note>)

  function Init(): World {
    World(NOTHING, Disk(map[], map[]), Booting, [], map[], [], map[], map[], map[], {}, {}, map[], map[], [], [])
  }

  function LineOf(w: World, c: Chat): seq<nat> { At(w.lines, c) }

  function PlanOf(w: World, c: Chat): seq<Turn> { At(w.plan, c) }

  function Enqueued(w: World, c: Chat, turn: Turn): World {
    w.(mem := Put(w.mem, c, turn),
       lines := w.lines[c := LineOf(w, c) + [|w.puts|]],
       puts := w.puts + [PutRecord(c, turn)],
       cut := if Busy(w.mem, c) then w.cut else w.cut - {c})
  }

  /** What one task does between two awaits, once it holds a turn.
      Refuse  an account or OS error of the turn's own setup or teardown
      ReportRaises  the failure report could not be sent
      Told    the notice of an account or OS error was sent
      Unwind  a pending cancellation reaches the task's current await */
  datatype Step =
    | Dispatch
    | EnterFlight
    | BeginCompaction
    | Respond(usage: Option<Usage>, reading: Option<IdleReading>)
    | Err
    | Finish
    | ReportRaises
    | Release
    | Close
    | Refuse
    | Told
    | Raise
    | Park(ok: bool)
    | Retire
    | Unwind
    | CleanupRaises

  datatype Event =
    // a message: the gate and the compaction it may queue, then journal and queue
    | Arrive(chat: Chat, threshold: nat)
    | Accept(index: nat, id: TurnId)
    | Compact(chat: Chat)
    | Tick(now: int, threshold: nat, lead: int, order: seq<Chat>)
    | SessionChanges(chat: Chat)
    // one drain task
    | Take(d: Task)
    | Move(d: Task, step: Step)
    | End(d: Task, released: bool)
    // the process
    | Abort(chat: Chat)
    | Shutdown
    | Crash
    | Boot(stale: set<TurnId>, stuck: set<TurnId>, written: bool)
    | Replay(chat: Chat)
    | Serve

  /** Which steps a task at phase `p` can take. */
  predicate StepEnabled(p: Phase, cancelled: bool, step: Step) {
    match step
    case Unwind => cancelled && !p.Idle? && !p.Retiring? && !p.Closing? && !p.Failing?
    case Dispatch => !cancelled && p.Starting?
    case EnterFlight => !cancelled && p.Preparing?
    case BeginCompaction => !cancelled && p.Running? && p.turn.compact
    case Respond(_, _) => !cancelled && ((p.Running? && !p.turn.compact) || p.Compacting?)
    case Err => !cancelled && (p.Running? || p.Compacting? || p.Replying?)
    case Finish => !cancelled && (p.Replying? || p.Erring?)
    case ReportRaises => !cancelled && p.Erring? && !p.turn.background
    case Release => !cancelled && p.Tidying?
    case Close => !cancelled && p.Closing?
    case Refuse =>
      !cancelled && (p.Starting? || p.Preparing? || p.Tidying? || p.Breaking? || (p.Unwinding? && p.guarded))
    case Told => !cancelled && p.Refusing?
    case Raise =>
      !cancelled && (p.Starting? || p.Preparing? || p.Tidying? || p.Breaking? || p.Refusing? || p.Closing?)
    case Park(_) => !cancelled && p.Failing?
    case Retire => !cancelled && p.Retiring?
    case CleanupRaises => !cancelled && p.Unwinding?
  }

  predicate CanMove(m: Memory, d: Task, step: Step) {
    d in m.tasks && StepEnabled(m.tasks[d].phase, m.tasks[d].cancelled, step)
  }

  /** A cancelled task that has not started, or is past its turn, just ends; one that
      was unwinding ends when its finally blocks are through. */
  predicate CanEnd(m: Memory, d: Task) {
    && d in m.tasks
    && (var p := m.tasks[d].phase;
        if m.tasks[d].cancelled then p.Idle? || p.Retiring? || p.Closing? || p.Failing?
        else p.Unwinding?)
  }

  // --- the start: what `take` hands over ---

  /** What `take` hands over for automatic replay; the rest it parks. */
  predicate Replayable(journal: map<TurnId, Pending>, stale: set<TurnId>, id: TurnId) {
    id in journal && id !in stale && journal[id].replays < MAX_REPLAYS
  }

  function ReplayIds(journal: map<TurnId, Pending>, stale: set<TurnId>): set<TurnId> {
    set id | id in journal && Replayable(journal, stale, id)
  }

  predicate IsLeast(ids: set<TurnId>, least: TurnId) { least in ids && forall id | id in ids :: least <= id }

  lemma HasLeast(ids: set<TurnId>)
    requires ids != {}
    ensures exists least :: IsLeast(ids, least)
    decreases ids
  {
    var one :| one in ids;
    if ids == {one} { assert IsLeast(ids, one); }
    else {
      HasLeast(ids - {one});
      var other :| IsLeast(ids - {one}, other);
      var least := if other < one then other else one;
      forall id | id in ids ensures least <= id { assert id == one || id in ids - {one}; }
      assert IsLeast(ids, least);
    }
  }

  /** `sort` by turn id. */
  ghost function SortedIds(ids: set<TurnId>): seq<TurnId>
    decreases ids
  {
    if ids == {} then []
    else
      HasLeast(ids);
      var first :| IsLeast(ids, first);
      [first] + SortedIds(ids - {first})
  }

  /** The turns to replay by chat, those of one chat in the order of the list. */
  function Grouped(journal: map<TurnId, Pending>, ids: seq<TurnId>): map<Chat, seq<Turn>>
    requires forall i | 0 <= i < |ids| :: ids[i] in journal
  {
    if |ids| == 0 then map[]
    else
      var rest, id := Grouped(journal, ids[..|ids| - 1]), ids[|ids| - 1];
      rest[journal[id].chat := At(rest, journal[id].chat) + [Turn(id, false, false)]]
  }

  lemma {:induction false} SortedIdsAre(ids: set<TurnId>)
    ensures forall id :: id in SortedIds(ids) <==> id in ids
    ensures forall i | 0 <= i < |SortedIds(ids)| :: SortedIds(ids)[i] in ids
    ensures forall i, j | 0 <= i < j < |SortedIds(ids)| :: SortedIds(ids)[i] < SortedIds(ids)[j]
    decreases ids
  {
    if ids != {} {
      var sorted := SortedIds(ids);
      var first, rest := sorted[0], SortedIds(ids - {sorted[0]});
      SortedIdsAre(ids - {first});
      assert sorted == [first] + rest && IsLeast(ids, first);
      forall j | 0 <= j < |rest| ensures first < rest[j] { assert rest[j] in rest; }
    }
  }

  ghost function TakePlan(journal: map<TurnId, Pending>, stale: set<TurnId>): map<Chat, seq<Turn>> {
    SortedIdsAre(ReplayIds(journal, stale));
    Grouped(journal, SortedIds(ReplayIds(journal, stale)))
  }

  ghost predicate Enabled(w: World, ev: Event) {
    match ev
    case Arrive(_, _) => w.stage.Serving? || w.stage.Stopping?
    case Accept(i, id) => i < |w.waiting| && id != NO_ID && id !in w.accepted
    case Compact(_) => w.stage.Serving? || w.stage.Stopping?
    case Tick(now, threshold, lead, order) =>
      (w.stage.Resuming? || w.stage.Serving?) && DueOrder(w.mem, now, threshold, lead, order)
    case SessionChanges(_) => true
    case Take(d) => d in w.mem.tasks && w.mem.tasks[d].phase.Idle? && !w.mem.tasks[d].cancelled
    case Move(d, step) => CanMove(w.mem, d, step)
    case End(d, _) => CanEnd(w.mem, d)
    case Abort(_) => true
    case Shutdown => w.stage.Serving?
    case Crash => true
    case Boot(_, _, _) => w.stage.Booting?
    case Replay(c) => w.stage.Resuming? && PlanOf(w, c) != []
    case Serve => w.stage.Resuming? && forall c :: PlanOf(w, c) == []
  }

  // --- the steps ---

  /** The first fate of an id is the one that counts. */
  function Fated(settled: map<TurnId, Fate>, ids: set<TurnId>, fate: Fate): map<TurnId, Fate> {
    (map id | id in ids && id != NO_ID :: fate) + settled
  }

  /** `get_nowait`: the oldest waiting turn, or the end of the task. */
  function TakeMemory(m: Memory, d: Task): Memory
    requires d in m.tasks
  {
    var c := m.tasks[d].chat;
    var q := QueueOf(m, c);
    if |q| == 0 then Done(m, d)
    else m.(tasks := m.tasks[d := Drain(c, Starting(q[0]), false)], queues := m.queues[c := q[1..]])
  }

  function TakeStep(w: World, d: Task): World
    requires d in w.mem.tasks
  {
    var c := w.mem.tasks[d].chat;
    var line := LineOf(w, c);
    if |QueueOf(w.mem, c)| == 0 || |line| == 0 then w.(mem := TakeMemory(w.mem, d), held := w.held - {d})
    else
      w.(mem := TakeMemory(w.mem, d),
         lines := w.lines[c := line[1..]],
         starts := w.starts[c := At(w.starts, c) + [line[0]]],
         held := w.held[d := line[0]])
  }

  /** The phase after a step. A failing turn is parked while it has a record. */
  function After(p: Phase, journaled: bool, step: Step): Phase
    requires exists cancelled :: StepEnabled(p, cancelled, step)
  {
    match step
    case Dispatch => Preparing(p.turn)
    case EnterFlight => Running(p.turn)
    case BeginCompaction => Compacting(p.turn)
    case Respond(_, _) => Replying(p.turn)
    case Err => Erring(p.turn)
    case Finish => Tidying(p.turn)
    case ReportRaises => Breaking(p.turn)
    case Release => Closing(p.turn)
    case Close => Idle
    case Refuse => Refusing(p.turn)
    case Told => Closing(p.turn)
    case Raise => Failing(p.turn)
    case Park(_) => if journaled then Retiring else Idle
    case Retire => Idle
    case Unwind => Unwinding(p.turn, !p.Refusing? && (p.Unwinding? ==> p.guarded))
    case CleanupRaises => Failing(p.turn)
  }

  /** Whether a step drops the turn's record: the turn is over, it is refused, or its
      failure is being reported when an error or a cancellation cuts that off. */
  predicate Settles(p: Phase, step: Step) {
    step.Finish? || step.Refuse? || step.ReportRaises? || (step.Unwind? && p.Erring?)
  }

  function FateOf(step: Step): Fate {
    if step.Refuse? then Untold else if step.Finish? then Answered else Unreported
  }

  /** The first fate counts, except that a notice sent in the end mends a lost one. */
  function SettledAfter(settled: map<TurnId, Fate>, p: Phase, step: Step): map<TurnId, Fate>
    requires HasTurn(p) || step.Retire?
  {
    if Settles(p, step) && HasTurn(p) then Fated(settled, {p.turn.id}, FateOf(step))
    else if step.Told? && HasTurn(p) && p.turn.id in settled && Lost(settled[p.turn.id]) then
      settled[p.turn.id := Refused]
    else settled
  }

  function DiskAfter(disk: Disk, p: Phase, step: Step): Disk
    requires HasTurn(p) || step.Retire?
  {
    if step.Retire? then disk
    else
      var id := p.turn.id;
      if Settles(p, step) then disk.(journal := disk.journal - {id})
      else if id !in disk.journal then disk
      else if step.Dispatch? then
        disk.(journal := disk.journal[id := disk.journal[id].(dispatched := true)])
      else if step == Park(true) then
        Disk(disk.journal - {id}, disk.recovery[id := disk.journal[id]])
      else disk
  }

  predicate HasTurn(p: Phase) { !p.Idle? && !p.Retiring? }

  function FlightAfter(flight: map<Chat, TurnId>, c: Chat, p: Phase, step: Step): map<Chat, TurnId>
    requires HasTurn(p) || step.Retire?
  {
    if step.EnterFlight? then flight[c := p.turn.id]
    else if step.Finish? || step.ReportRaises? || (step.Unwind? && InFlight(p)) then flight - {c}
    else flight
  }

  /** Only an ordinary turn's answer carries readings. */
  predicate Reads(p: Phase, step: Step) {
    step.Respond? && HasTurn(p) && !p.turn.compact && (step.usage.Some? || step.reading.Some?)
  }

  function ContextAfter(context: map<Chat, Usage>, c: Chat, p: Phase, step: Step): map<Chat, Usage> {
    if step.BeginCompaction? then context - {c}
    else if Reads(p, step) && step.usage.Some? then context[c := step.usage.value]
    else context
  }

  function IdleAfter(idle: map<Chat, IdleReading>, c: Chat, p: Phase, step: Step): map<Chat, IdleReading> {
    if step.Dispatch? then idle - {c}
    else if Reads(p, step) && step.reading.Some? then idle[c := step.reading.value]
    else idle
  }

  function MoveMemory(m: Memory, d: Task, journaled: bool, step: Step): Memory
    requires d in m.tasks && StepEnabled(m.tasks[d].phase, m.tasks[d].cancelled, step)
  {
    var c, p := m.tasks[d].chat, m.tasks[d].phase;
    m.(tasks := m.tasks[d := Drain(c, After(p, journaled, step), false)],
       inFlight := FlightAfter(m.inFlight, c, p, step),
       context := ContextAfter(m.context, c, p, step),
       idle := IdleAfter(m.idle, c, p, step),
       background := if step.Release? && p.turn.background then m.background - {c} else m.background)
  }

  predicate Journaled(w: World, p: Phase) { HasTurn(p) && p.turn.id in w.disk.journal }

  function Noted(notes: seq<Note>, c: Chat, p: Phase, step: Step): seq<Note> {
    if step.Dispatch? then notes + [Dispatched(c)]
    else if Reads(p, step) then notes + [ReadingTaken(c)]
    else notes
  }

  function MoveStep(w: World, d: Task, step: Step): World
    requires CanMove(w.mem, d, step)
  {
    var c, p := w.mem.tasks[d].chat, w.mem.tasks[d].phase;
    w.(mem := MoveMemory(w.mem, d, Journaled(w, p), step),
       disk := DiskAfter(w.disk, p, step),
       settled := SettledAfter(w.settled, p, step),
       notes := Noted(w.notes, c, p, step))
  }

  function EndMemory(m: Memory, d: Task, released: bool): Memory
    requires CanEnd(m, d)
  {
    var c, p := m.tasks[d].chat, m.tasks[d].phase;
    var m1 := Done(m, d);
    if released && p.Unwinding? && p.turn.background then m1.(background := m1.background - {c}) else m1
  }

  function EndStep(w: World, d: Task, released: bool): World
    requires CanEnd(w.mem, d)
  {
    w.(mem := EndMemory(w.mem, d, released), held := w.held - {d})
  }

  function Ids(turns: seq<Turn>): set<TurnId> { set t | t in turns :: t.id }

  function AbortMemory(m: Memory, c: Chat): Memory {
    m.(queues := if c in m.queues then m.queues[c := []] else m.queues,
       tasks := if Busy(m, c)
                then m.tasks[m.running[c] := m.tasks[m.running[c]].(cancelled := true)] else m.tasks)
  }

  /** The records an abort drops: of what waits, and of the turn in flight. */
  function AbortedIds(m: Memory, c: Chat): set<TurnId> {
    Ids(QueueOf(m, c)) + (if Busy(m, c) && c in m.inFlight then {m.inFlight[c]} else {})
  }

  /** The synchronous part of `abort`: drop what waits, and its records; drop the
      record of the turn in flight; cancel the task. */
  function AbortStep(w: World, c: Chat): World {
    w.(mem := AbortMemory(w.mem, c),
       disk := w.disk.(journal := w.disk.journal - AbortedIds(w.mem, c)),
       settled := Fated(w.settled, AbortedIds(w.mem, c), Aborted),
       dropped := w.dropped + (set k | k in LineOf(w, c)),
       lines := w.lines[c := []],
       cut := w.cut + {c})
  }

  function ShutdownMemory(m: Memory): Memory {
    m.(tasks := map d | d in m.tasks :: m.tasks[d].(cancelled := true))
  }

  function ShutdownStep(w: World): World {
    w.(stage := Stopping, mem := ShutdownMemory(w.mem), cut := w.cut + w.mem.running.Keys)
  }

  function CrashStep(w: World): World {
    World(NOTHING, w.disk, Booting, [], map[], [], map[], map[], map[], {}, {}, w.accepted, w.settled, [], w.notes)
  }

  /** `take`: the stale and the exhausted are parked unless the write of the recovery
      file fails, the rest are reserved and planned for replay. When the journal itself
      cannot be written nothing is reserved and nothing replayed. */
  function TakenDisk(disk: Disk, stale: set<TurnId>, stuck: set<TurnId>, written: bool): Disk {
    var parked := ParkedIds(disk.journal, stale, stuck);
    Disk(if written then Retained(disk.journal, stale, parked) else disk.journal,
         disk.recovery + Only(disk.journal, parked))
  }

  function ParkedIds(j: map<TurnId, Pending>, stale: set<TurnId>, stuck: set<TurnId>): set<TurnId> {
    set id | id in j && !Replayable(j, stale, id) && id !in stuck
  }

  function Only(j: map<TurnId, Pending>, ids: set<TurnId>): map<TurnId, Pending> {
    map id | id in j && id in ids :: j[id]
  }

  function Retained(j: map<TurnId, Pending>, stale: set<TurnId>, parked: set<TurnId>): map<TurnId, Pending> {
    map id | id in j && id !in parked ::
      if Replayable(j, stale, id) then j[id].(replays := j[id].replays + 1) else j[id]
  }

  ghost function BootStep(w: World, stale: set<TurnId>, stuck: set<TurnId>, written: bool): World {
    w.(stage := Resuming,
       plan := if written then TakePlan(w.disk.journal, stale) else map[],
       disk := TakenDisk(w.disk, stale, stuck, written))
  }

  function ReplayStep(w: World, c: Chat): World
    requires PlanOf(w, c) != []
  {
    Enqueued(w, c, w.plan[c][0]).(plan := w.plan[c := w.plan[c][1..]])
  }

  /** The gate consumes the reading it acted on. */
  function Consumed(w: World, c: Chat): World {
    w.(mem := w.mem.(context := w.mem.context - {c}), notes := w.notes + [AutoQueued(c)])
  }

  function ArriveStep(w: World, c: Chat, due: bool): World {
    if due then
      Enqueued(Consumed(w, c), c, COMPACTION).(waiting := w.waiting + [Waiting(c, Some(|w.puts|))])
    else w.(waiting := w.waiting + [Waiting(c, None)])
  }

  function AcceptStep(w: World, i: nat, id: TurnId): World
    requires i < |w.waiting|
  {
    var c := w.waiting[i].chat;
    var w1 := w.(disk := w.disk.(journal := w.disk.journal[id := Pending(c, false, 0)]),
                 accepted := w.accepted[id := c],
                 waiting := w.waiting[..i] + w.waiting[i + 1..],
                 messages := if w.waiting[i].after.Some?
                             then w.messages + [(w.waiting[i].after.value, |w.puts|)] else w.messages);
    Enqueued(w1, c, Turn(id, false, false))
  }

  function Claimed(w: World, c: Chat): World {
    w.(mem := w.mem.(idle := w.mem.idle - {c}, context := w.mem.context - {c},
                     background := w.mem.background + {c}),
       notes := w.notes + [AutoQueued(c)])
  }

  function Silence(w: World, c: Chat): World { Enqueued(Claimed(w, c), c, SILENT) }

  /** One silent compaction per due chat until the cap is reached. */
  function SilenceAll(w: World, order: seq<Chat>): World
    decreases |order|
  {
    if |order| == 0 || |w.mem.background| >= IDLE_COMPACT_MAX_RUNNING then w
    else SilenceAll(Silence(w, order[0]), order[1..])
  }

  ghost function Next(w: World, ev: Event): World {
    if !Enabled(w, ev) then w else
    match ev
    case Arrive(c, threshold) => ArriveStep(w, c, OverThreshold(w.mem.context, c, threshold))
    case Accept(i, id) => AcceptStep(w, i, id)
    case Compact(c) => Enqueued(w, c, COMPACTION)
    case Tick(now, _, _, order) => SilenceAll(w.(mem := Refreshed(w.mem, now)), order)
    case SessionChanges(c) => w.(mem := w.mem.(context := w.mem.context - {c}, idle := w.mem.idle - {c}))
    case Take(d) => TakeStep(w, d)
    case Move(d, step) => MoveStep(w, d, step)
    case End(d, released) => EndStep(w, d, released)
    case Abort(c) => AbortStep(w, c)
    case Shutdown => ShutdownStep(w)
    case Crash => CrashStep(w)
    case Boot(stale, stuck, written) => BootStep(w, stale, stuck, written)
    case Replay(c) => ReplayStep(w, c)
    case Serve => w.(stage := Serving)
  }

  /** The world after any sequence of events; a disabled event changes nothing. */
  ghost function Exec(evs: seq<Event>): World {
    if evs == [] then Init() else Next(Exec(evs[..|evs| - 1]), evs[|evs| - 1])
  }
}
