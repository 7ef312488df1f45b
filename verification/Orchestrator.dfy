/** The turn engine in the form its methods have: tables updated in place. Every
    method is proved against the step of `TurnEngine` it performs. */
module OrchestratorTables {
  import opened Options
  import opened TurnEngine
  import opened TurnRuns
  import opened TurnStart

  // --- the order in which due chats are served ---

  /** `sorted` on pairs of expiry and chat, one pair at a time. */
  function Insert(m: Memory, due: seq<Chat>, c: Chat): seq<Chat>
    requires c in m.idle && forall i | 0 <= i < |due| :: due[i] in m.idle
  {
    if |due| == 0 || ExpiresBefore(m, c, due[0]) then [c] + due
    else [due[0]] + Insert(m, due[1..], c)
  }

  ghost predicate Sorted(m: Memory, due: seq<Chat>) {
    && (forall i | 0 <= i < |due| :: due[i] in m.idle)
    && (forall i, j | 0 <= i < j < |due| :: ExpiresBefore(m, due[i], due[j]))
  }

  lemma {:induction false} InsertSorts(m: Memory, due: seq<Chat>, c: Chat)
    requires c in m.idle && Sorted(m, due) && c !in due
    ensures Sorted(m, Insert(m, due, c))
    ensures forall b :: b in Insert(m, due, c) <==> b in due || b == c
  {
    if |due| != 0 && !ExpiresBefore(m, c, due[0]) {
      var rest := due[1..];
      assert due == [due[0]] + rest;
      InsertSorts(m, rest, c);
      var more := Insert(m, rest, c);
      forall j | 0 <= j < |more| ensures more[j] in m.idle && ExpiresBefore(m, due[0], more[j]) {
        assert more[j] in more;
        if more[j] != c {
          var k :| 0 <= k < |rest| && rest[k] == more[j];
          assert due[k + 1] == more[j];
        }
      }
    }
  }

  /** The due chats among those already looked at, in order. */
  ghost predicate DueSoFar(m: Memory, left: set<Chat>, now: int, threshold: nat, lead: int, due: seq<Chat>) {
    (forall c :: c in due <==> c !in left && DueForSilence(m, c, now, threshold, lead)) && Sorted(m, due)
  }

  lemma DueStep(m: Memory, left: set<Chat>, c: Chat, now: int, threshold: nat, lead: int, due: seq<Chat>)
    requires DueSoFar(m, left, now, threshold, lead, due) && c in left && c in m.idle
    ensures DueSoFar(m, left - {c}, now, threshold, lead,
                     if DueForSilence(m, c, now, threshold, lead) then Insert(m, due, c) else due)
  {
    InsertSorts(m, due, c);
  }

  /** The due chats can be served in one order only. */
  lemma DueOrderIsUnique(m: Memory, now: int, threshold: nat, lead: int, one: seq<Chat>, two: seq<Chat>)
    requires DueOrder(m, now, threshold, lead, one) && DueOrder(m, now, threshold, lead, two)
    ensures one == two
  {
    forall c ensures c in one <==> c in two {
      assert c in one <==> DueForSilence(m, c, now, threshold, lead);
    }
    DueIsSorted(m, now, threshold, lead, one);
    DueIsSorted(m, now, threshold, lead, two);
    SortedIsUnique(m, one, two);
  }

  lemma DueIsSorted(m: Memory, now: int, threshold: nat, lead: int, order: seq<Chat>)
    requires DueOrder(m, now, threshold, lead, order)
    ensures Sorted(m, order)
  {
    forall i | 0 <= i < |order| ensures order[i] in m.idle {
      assert order[i] in order;
      assert DueForSilence(m, order[i], now, threshold, lead);
    }
  }

  lemma {:induction false} SortedIsUnique(m: Memory, one: seq<Chat>, two: seq<Chat>)
    requires Sorted(m, one) && Sorted(m, two)
    requires forall c :: c in one <==> c in two
    ensures one == two
  {
    HasOne(one);
    HasOne(two);
    if |one| != 0 && |two| != 0 {
      assert one[0] in two && two[0] in one;
      assert one[0] == two[0];
      var r, s := one[1..], two[1..];
      forall c ensures c in r <==> c in s {
        TailHas(m, one, c);
        TailHas(m, two, c);
      }
      SortedIsUnique(m, r, s);
      assert one == [one[0]] + r && two == [two[0]] + s;
    }
  }

  lemma HasOne(due: seq<Chat>)
    ensures |due| != 0 ==> exists c :: c in due
  {
    if |due| != 0 { assert due[0] in due; }
  }

  lemma TailHas(m: Memory, due: seq<Chat>, c: Chat)
    requires Sorted(m, due) && |due| != 0
    ensures c in due[1..] <==> c in due && c != due[0]
  {
    if c in due && c != due[0] {
      var i :| 0 <= i < |due| && due[i] == c;
      assert due[1..][i - 1] == c;
    }
  }

  // --- the silent compactions of one tick ---

  /** `SilenceAll` on the tables alone. */
  function SilenceTables(m: Memory, order: seq<Chat>): Memory
    decreases |order|
  {
    if |order| == 0 || |m.background| >= IDLE_COMPACT_MAX_RUNNING then m
    else SilenceTables(SilenceMemory(m, order[0]), order[1..])
  }

  /** Which chats are due does not depend on the count of silent compactions. */
  lemma DueIgnoresBackground(m: Memory, background: set<Chat>, now: int, threshold: nat, lead: int, order: seq<Chat>)
    requires DueOrder(m.(background := background), now, threshold, lead, order)
    ensures DueOrder(m, now, threshold, lead, order)
  {
    var kept := m.(background := background);
    forall c ensures c in order <==> DueForSilence(m, c, now, threshold, lead) {
      assert c in order <==> DueForSilence(kept, c, now, threshold, lead);
    }
    DueIsSorted(kept, now, threshold, lead, order);
    forall i, j | 0 <= i < j < |order|
      ensures order[i] in m.idle && order[j] in m.idle && ExpiresBefore(m, order[i], order[j])
    {
      assert ExpiresBefore(kept, order[i], order[j]);
    }
  }

  lemma SilenceOne(m: Memory, due: seq<Chat>, i: nat)
    requires i < |due| && |m.background| < IDLE_COMPACT_MAX_RUNNING
    ensures SilenceTables(m, due[i..]) == SilenceTables(SilenceMemory(m, due[i]), due[i + 1..])
  {
    assert due[i..][1..] == due[i + 1..];
  }

  lemma {:induction false} SilenceTablesAgree(w: World, order: seq<Chat>)
    ensures SilenceAll(w, order).mem == SilenceTables(w.mem, order)
    decreases |order|
  {
    if |order| != 0 && |w.mem.background| < IDLE_COMPACT_MAX_RUNNING {
      assert Silence(w, order[0]).mem == SilenceMemory(w.mem, order[0]);
      SilenceTablesAgree(Silence(w, order[0]), order[1..]);
    }
  }

  class Orchestrator {
    var queues: map<Chat, seq<Turn>>
    var running: map<Chat, Task>
    var tasks: map<Task, Drain>
    var spawned: nat
    var inFlight: map<Chat, TurnId>
    var context: map<Chat, Usage>
    var idle: map<Chat, IdleReading>
    var background: set<Chat>
    var journal: map<TurnId, Pending>
    var recovery: map<TurnId, Pending>

    function Tables(): Memory
      reads this
    {
      Memory(queues, running, tasks, spawned, inFlight, context, idle, background)
    }

    function Durable(): Disk
      reads this
    {
      Disk(journal, recovery)
    }

    constructor (disk: Disk)
      ensures Tables() == NOTHING && Durable() == disk
    {
      queues, running, tasks, spawned := map[], map[], map[], 0;
      inFlight, context, idle, background := map[], map[], map[], {};
      journal, recovery := disk.journal, disk.recovery;
    }

    predicate IsBusy(c: Chat)
      reads this
    {
      c in running && running[c] in tasks
    }

    method Forget(id: TurnId)
      modifies `journal
      ensures journal == old(journal) - {id}
    {
      journal := journal - {id};
    }

    /** The record is written before the turn reaches the queue. */
    method JournalTurn(c: Chat, turn: Turn, newId: TurnId) returns (journaled: Turn)
      requires newId != NO_ID
      modifies `journal
      ensures journaled.compact == turn.compact && journaled.background == turn.background
      ensures turn.compact || turn.id != NO_ID ==> journaled == turn && journal == old(journal)
      ensures !turn.compact && turn.id == NO_ID ==>
        journaled.id == newId && journal == old(journal)[newId := Pending(c, false, 0)]
    {
      if turn.compact || turn.id != NO_ID { return turn; }
      journal := journal[newId := Pending(c, false, 0)];
      return turn.(id := newId);
    }

    method PutTurn(c: Chat, turn: Turn)
      modifies `queues, `running, `tasks, `spawned
      ensures Tables() == Put(old(Tables()), c, turn)
    {
      if c !in queues { queues := queues[c := []]; }
      queues := queues[c := queues[c] + [turn]];
      if !IsBusy(c) {
        tasks := tasks[spawned := Drain(c, Idle, false)];
        running := running[c := spawned];
        spawned := spawned + 1;
      }
    }

    method Enqueue(c: Chat, turn: Turn, newId: TurnId)
      requires newId != NO_ID
      modifies `queues, `running, `tasks, `spawned, `journal
      ensures turn.compact || turn.id != NO_ID ==>
        Tables() == Put(old(Tables()), c, turn) && Durable() == old(Durable())
      ensures !turn.compact && turn.id == NO_ID ==>
        && Tables() == Put(old(Tables()), c, turn.(id := newId))
        && Durable() == old(Durable()).(journal := old(journal)[newId := Pending(c, false, 0)])
    {
      var journaled := JournalTurn(c, turn, newId);
      PutTurn(c, journaled);
    }

    /** The auto-compact gate: true at most once per reading. */
    method DueForCompaction(c: Chat, threshold: nat) returns (due: bool)
      modifies `context
      ensures due == OverThreshold(old(context), c, threshold)
      ensures context == if due then old(context) - {c} else old(context)
    {
      if threshold == 0 || c !in context { return false; }
      var reading := context[c];
      if reading.window <= 0 { return false; }
      if reading.tokens * 100 < threshold * reading.window { return false; }
      context := context - {c};
      return true;
    }

    /** The part of `on_message` before the message is accepted. */
    method OnArrival(c: Chat, threshold: nat) returns (due: bool)
      modifies `queues, `running, `tasks, `spawned, `journal, `context
      ensures due == OverThreshold(old(context), c, threshold)
      ensures Durable() == old(Durable())
      ensures forall w: World | w.mem == old(Tables()) :: Tables() == ArriveStep(w, c, due).mem
    {
      due := DueForCompaction(c, threshold);
      if due { Enqueue(c, COMPACTION, 1); }
    }

    /** `on_message` when no other task runs in between: the arrival step, and with it
        the acceptance of the message that arrived. */
    method OnMessage(c: Chat, threshold: nat, newId: TurnId)
      requires newId != NO_ID
      modifies `queues, `running, `tasks, `spawned, `journal, `context
      ensures forall w: World | w.mem == old(Tables()) && w.disk == old(Durable()) ::
        var w1 := ArriveStep(w, c, OverThreshold(w.mem.context, c, threshold));
        var w2 := AcceptStep(w1, |w1.waiting| - 1, newId);
        Tables() == w2.mem && Durable() == w2.disk
    {
      ghost var was, disk := Tables(), Durable();
      var due := OnArrival(c, threshold);
      ghost var met := Tables();
      Enqueue(c, Turn(NO_ID, false, false), newId);
      forall w: World | w.mem == was && w.disk == disk
        ensures var w1 := ArriveStep(w, c, OverThreshold(w.mem.context, c, threshold));
          var w2 := AcceptStep(w1, |w1.waiting| - 1, newId);
          Tables() == w2.mem && Durable() == w2.disk
      {
        assert ArriveStep(w, c, due).mem == met;
        ArrivalThenAcceptance(w, c, due, newId);
      }
    }

    /** The part of `abort` before it waits for the task. */
    method Abort(c: Chat) returns (stopped: bool)
      modifies this
      ensures stopped == old(IsBusy(c))
      ensures Tables() == AbortMemory(old(Tables()), c)
      ensures Durable() == old(Durable()).(journal := old(journal) - AbortedIds(old(Tables()), c))
    {
      ghost var was := QueueOf(Tables(), c);
      ghost var n := 0;
      if c in queues {
        while |queues[c]| != 0
          invariant c in queues && n <= |was| && queues == old(queues)[c := was[n..]]
          invariant journal == old(journal) - Ids(was[..n])
          invariant unchanged(`running, `tasks, `spawned, `inFlight, `context, `idle, `background, `recovery)
          decreases |queues[c]|
        {
          var dropped := queues[c][0];
          queues := queues[c := queues[c][1..]];
          Forget(dropped.id);
          IdsGrow(was, n);
          n := n + 1;
        }
        assert was[..n] == was;
      }
      assert journal == old(journal) - Ids(was);
      if !IsBusy(c) { return false; }
      if c in inFlight { Forget(inFlight[c]); }
      tasks := tasks[running[c] := tasks[running[c]].(cancelled := true)];
      return true;
    }

    /** `get_nowait`, or the end of the drain task. */
    method TakeNext(d: Task) returns (turn: Option<Turn>)
      requires TasksOk(Tables())
      requires d in tasks && tasks[d].phase.Idle? && !tasks[d].cancelled
      modifies `queues, `tasks, `running
      ensures Tables() == TakeMemory(old(Tables()), d)
      ensures turn == (var q := QueueOf(old(Tables()), old(tasks[d].chat)); if |q| == 0 then None else Some(q[0]))
    {
      var c := tasks[d].chat;
      if c in queues && |queues[c]| != 0 {
        turn := Some(queues[c][0]);
        queues := queues[c := queues[c][1..]];
        tasks := tasks[d := Drain(c, Starting(turn.value), false)];
      } else {
        turn := None;
        if c in running && running[c] == d { running := running - {c}; }
        tasks := tasks - {d};
      }
    }

    /** `mark_dispatched`, and the idle reading dropped. */
    method MarkDispatched(d: Task)
      requires CanMove(Tables(), d, Dispatch)
      modifies `journal, `idle, `tasks
      ensures Tables() == MoveMemory(old(Tables()), d, old(tasks[d].phase.turn.id in journal), Dispatch)
      ensures Durable() == DiskAfter(old(Durable()), old(tasks[d].phase), Dispatch)
    {
      var c, turn := tasks[d].chat, tasks[d].phase.turn;
      if turn.id in journal { journal := journal[turn.id := journal[turn.id].(dispatched := true)]; }
      idle := idle - {c};
      tasks := tasks[d := Drain(c, Preparing(turn), false)];
    }

    /** A compaction begins: the size reading it makes stale goes. */
    method BeginCompacting(d: Task)
      requires CanMove(Tables(), d, BeginCompaction)
      modifies `context, `tasks
      ensures Tables() == MoveMemory(old(Tables()), d, old(tasks[d].phase.turn.id in journal), BeginCompaction)
    {
      var c, turn := tasks[d].chat, tasks[d].phase.turn;
      context := context - {c};
      tasks := tasks[d := Drain(c, Compacting(turn), false)];
    }

    /** The readings of a turn that answered. */
    method NoteResponse(d: Task, usage: Option<Usage>, reading: Option<IdleReading>)
      requires CanMove(Tables(), d, Respond(usage, reading))
      modifies `context, `idle, `tasks
      ensures Tables()
        == MoveMemory(old(Tables()), d, old(tasks[d].phase.turn.id in journal), Respond(usage, reading))
      ensures Durable() == DiskAfter(old(Durable()), old(tasks[d].phase), Respond(usage, reading))
      ensures var c, ordinary := old(tasks[d].chat), !old(tasks[d].phase.turn.compact);
        && context == (if ordinary && usage.Some? then old(context)[c := usage.value] else old(context))
        && idle == (if ordinary && reading.Some? then old(idle)[c := reading.value] else old(idle))
    {
      var c, turn := tasks[d].chat, tasks[d].phase.turn;
      if !turn.compact {
        if usage.Some? { context := context[c := usage.value]; }
        if reading.Some? { idle := idle[c := reading.value]; }
      }
      tasks := tasks[d := Drain(c, Replying(turn), false)];
    }

    /** The synchronous start of the `finally` of a turn that was not interrupted. */
    method FinishTurn(d: Task)
      requires CanMove(Tables(), d, Finish)
      modifies `journal, `inFlight, `tasks
      ensures Tables() == MoveMemory(old(Tables()), d, old(tasks[d].phase.turn.id in journal), Finish)
      ensures Durable() == DiskAfter(old(Durable()), old(tasks[d].phase), Finish)
    {
      var c, turn := tasks[d].chat, tasks[d].phase.turn;
      Forget(turn.id);
      inFlight := inFlight - {c};
      tasks := tasks[d := Drain(c, Tidying(turn), false)];
    }

    /** The same `finally` when the report of the turn's failure raised: the record goes
        all the same, and the error goes on. */
    method FinishUnreported(d: Task)
      requires CanMove(Tables(), d, ReportRaises)
      modifies `journal, `inFlight, `tasks
      ensures Tables() == MoveMemory(old(Tables()), d, old(tasks[d].phase.turn.id in journal), ReportRaises)
      ensures Durable() == DiskAfter(old(Durable()), old(tasks[d].phase), ReportRaises)
    {
      var c, turn := tasks[d].chat, tasks[d].phase.turn;
      Forget(turn.id);
      inFlight := inFlight - {c};
      tasks := tasks[d := Drain(c, Breaking(turn), false)];
    }

    /** The arm that catches account and OS errors: the record goes before the notice. */
    method RefuseTurn(d: Task)
      requires CanMove(Tables(), d, Refuse)
      modifies `journal, `tasks
      ensures Tables() == MoveMemory(old(Tables()), d, old(tasks[d].phase.turn.id in journal), Refuse)
      ensures Durable() == DiskAfter(old(Durable()), old(tasks[d].phase), Refuse)
    {
      var c, turn := tasks[d].chat, tasks[d].phase.turn;
      Forget(turn.id);
      tasks := tasks[d := Drain(c, Refusing(turn), false)];
    }

    /** The `except` arm of the drain loop: park the record of a turn that raised. */
    method ParkFailed(d: Task, written: bool)
      requires CanMove(Tables(), d, Park(written))
      modifies `journal, `recovery, `tasks
      ensures Tables() == MoveMemory(old(Tables()), d, old(tasks[d].phase.turn.id in journal), Park(written))
      ensures Durable() == DiskAfter(old(Durable()), old(tasks[d].phase), Park(written))
    {
      var c, turn := tasks[d].chat, tasks[d].phase.turn;
      if turn.id in journal {
        if written {
          recovery := recovery[turn.id := journal[turn.id]];
          Forget(turn.id);
        }
        tasks := tasks[d := Drain(c, Retiring, false)];
      } else {
        tasks := tasks[d := Drain(c, Idle, false)];
      }
    }

    /** One record in the loop of `take`: parked, kept because it could not be parked,
        or reserved. */
    method SortRecord(id: TurnId, stale: set<TurnId>, stuck: set<TurnId>, kept: map<TurnId, Pending>,
                      listed: seq<TurnId>, ghost disk: Disk, ghost left: set<TurnId>)
      returns (retained: map<TurnId, Pending>, replay: seq<TurnId>)
      requires id in journal && journal == disk.journal && id in left
      requires TakenSoFar(disk, stale, stuck, left, recovery, kept, listed)
      modifies `recovery
      ensures TakenSoFar(disk, stale, stuck, left - {id}, recovery, retained, replay)
    {
      var entry := journal[id];
      retained, replay := kept, listed;
      TakeOneMore(disk, stale, stuck, left, id, recovery, retained, replay);
      if id in stale || entry.replays >= MAX_REPLAYS {
        if id in stuck { retained := retained[id := entry]; }
        else { recovery := recovery[id := entry]; }
      } else {
        retained := retained[id := entry.(replays := entry.replays + 1)];
        replay := InsertId(replay, id);
      }
    }

    /** The loop of `take`. */
    method SortOut(stale: set<TurnId>, stuck: set<TurnId>)
      returns (retained: map<TurnId, Pending>, replay: seq<TurnId>)
      modifies `recovery
      ensures TakenSoFar(old(Durable()), stale, stuck, {}, recovery, retained, replay)
    {
      ghost var disk := Durable();
      var left := journal.Keys;
      retained, replay := map[], [];
      TakenNone(disk, stale, stuck);
      while left != {}
        invariant left <= journal.Keys
        invariant TakenSoFar(disk, stale, stuck, left, recovery, retained, replay)
        decreases |left|
      {
        var id :| id in left;
        retained, replay := SortRecord(id, stale, stuck, retained, replay, disk, left);
        left := left - {id};
      }
    }

    /** `take`: nothing is handed over for replay unless the reservation was written. */
    method Take(stale: set<TurnId>, stuck: set<TurnId>, written: bool) returns (replay: seq<TurnId>)
      modifies `journal, `recovery
      ensures Durable() == TakenDisk(old(Durable()), stale, stuck, written)
      ensures replay == if written then SortedIds(ReplayIds(old(journal), stale)) else []
    {
      ghost var disk := Durable();
      var retained: map<TurnId, Pending>;
      retained, replay := SortOut(stale, stuck);
      TakenAll(disk, stale, stuck, recovery, retained, replay, written);
      if !written { return []; }
      journal := retained;
    }

    /** `resume_pending`: what `take` hands over, grouped by chat. */
    method ResumePending(stale: set<TurnId>, stuck: set<TurnId>, written: bool) returns (plan: map<Chat, seq<Turn>>)
      modifies `journal, `recovery
      ensures Durable() == TakenDisk(old(Durable()), stale, stuck, written)
      ensures plan == if written then TakePlan(old(journal), stale) else map[]
    {
      ghost var was := Durable();
      var replay := Take(stale, stuck, written);
      SortedIdsAre(ReplayIds(was.journal, stale));
      plan := map[];
      for i := 0 to |replay|
        invariant Durable() == TakenDisk(was, stale, stuck, written)
        invariant forall k | 0 <= k < |replay| :: Replayable(was.journal, stale, replay[k])
        invariant plan == Grouped(was.journal, replay[..i])
      {
        GroupedNext(was.journal, replay, i);
        var c := journal[replay[i]].chat;
        plan := plan[c := At(plan, c) + [Turn(replay[i], false, false)]];
      }
      assert replay[..|replay|] == replay;
    }

    /** The chats inside their window, the nearest expiry first; lapsed readings go. */
    method IdleCompactDue(now: int, threshold: nat, lead: int) returns (due: seq<Chat>)
      modifies `idle
      ensures DueOrder(old(Tables()), now, threshold, lead, due)
      ensures idle == Refreshed(old(Tables()), now).idle
    {
      due := [];
      var start := Tables();
      var left := idle.Keys;
      while left != {}
        invariant left <= start.idle.Keys
        invariant idle == map c | c in start.idle && (c in left || !Expired(start.idle[c], now)) :: start.idle[c]
        invariant DueSoFar(start, left, now, threshold, lead, due)
        decreases |left|
      {
        var c :| c in left;
        DueStep(start, left, c, now, threshold, lead, due);
        left := left - {c};
        var reading := idle[c];
        if now - reading.endedAt >= reading.ttl {
          idle := idle - {c};
        } else if && reading.tokens >= threshold
                  && reading.ttl > lead && now - reading.endedAt >= reading.ttl - lead
                  && !IsBusy(c) && QueueOf(start, c) == [] {
          due := Insert(start, due, c);
        }
      }
    }

    /** The body of the tick's loop: claim the chat, queue its silent compaction. */
    method CompactOne(c: Chat)
      modifies this
      ensures Tables() == SilenceMemory(old(Tables()), c)
      ensures Durable() == old(Durable())
    {
      idle := idle - {c};
      context := context - {c};
      background := background + {c};
      Enqueue(c, SILENT, 1);
    }

    /** One tick of the idle loop. */
    method CompactIdleChats(now: int, threshold: nat, lead: int) returns (ghost order: seq<Chat>)
      requires TasksOk(Tables())
      modifies this
      ensures DueOrder(old(Tables()), now, threshold, lead, order)
      ensures forall w: World | w.mem == old(Tables()) ::
        Tables() == SilenceAll(w.(mem := Refreshed(w.mem, now)), order).mem
      ensures Durable() == old(Durable())
    {
      background := set c | c in background && IsBusy(c);
      ghost var was, kept := old(Tables()), Tables();
      var due := IdleCompactDue(now, threshold, lead);
      order := due;
      DueIgnoresBackground(was, kept.background, now, threshold, lead, due);
      assert Tables() == kept.(idle := Refreshed(kept, now).idle) == Refreshed(was, now);
      CompactListed(due);
      forall w: World | w.mem == was ensures Tables() == SilenceAll(w.(mem := Refreshed(w.mem, now)), order).mem {
        SilenceTablesAgree(w.(mem := Refreshed(w.mem, now)), order);
      }
    }

    /** The tick's loop: until the cap is reached. */
    method CompactListed(due: seq<Chat>)
      modifies this
      ensures Tables() == SilenceTables(old(Tables()), due)
      ensures Durable() == old(Durable())
    {
      var i := 0;
      while i < |due|
        invariant 0 <= i <= |due|
        invariant SilenceTables(Tables(), due[i..]) == SilenceTables(old(Tables()), due)
        invariant Durable() == old(Durable())
      {
        if |background| >= IDLE_COMPACT_MAX_RUNNING {
          assert SilenceTables(Tables(), due[i..]) == Tables();
          return;
        }
        SilenceOne(Tables(), due, i);
        CompactOne(due[i]);
        i := i + 1;
      }
      assert due[i..] == [];
    }
  }

  lemma ArrivalThenAcceptance(w: World, c: Chat, due: bool, id: TurnId)
    ensures var w1 := ArriveStep(w, c, due);
      && |w1.waiting| != 0 && w1.disk == w.disk
      && var w2 := AcceptStep(w1, |w1.waiting| - 1, id);
      && w2.mem == Put(w1.mem, c, Turn(id, false, false))
      && w2.disk == w.disk.(journal := w.disk.journal[id := Pending(c, false, 0)])
  {
  }

  lemma IdsGrow(turns: seq<Turn>, n: nat)
    requires n < |turns|
    ensures Ids(turns[..n + 1]) == Ids(turns[..n]) + {turns[n].id}
  {
    assert turns[..n + 1] == turns[..n] + [turns[n]];
  }
}
