/** A compaction that a message triggers runs before that message. */
module TurnMessages {
  import opened Options
  import opened TurnEngine
  import opened TurnRuns
  import opened TurnApart

  /** Ticket `k` is a compaction of `c`. */
  predicate CompactionAt(puts: seq<PutRecord>, k: nat, c: Chat) {
    k < |puts| && puts[k] == PutRecord(c, COMPACTION)
  }

  /** A pair of tickets: a compaction, and the message that triggered it. */
  ghost predicate PairOk(puts: seq<PutRecord>, pair: (nat, nat)) {
    && pair.0 < pair.1 < |puts|
    && !puts[pair.1].turn.compact
    && CompactionAt(puts, pair.0, puts[pair.1].chat)
  }

  ghost predicate MessagesOk(waiting: seq<Waiting>, messages: seq<(nat, nat)>, puts: seq<PutRecord>) {
    && (forall x | x in waiting && x.after.Some? :: CompactionAt(puts, x.after.value, x.chat))
    && (forall pair | pair in messages :: PairOk(puts, pair))
  }

  ghost predicate MessageInv(w: World) { MessagesOk(w.waiting, w.messages, w.puts) }

  lemma MorePuts(waiting: seq<Waiting>, messages: seq<(nat, nat)>, puts: seq<PutRecord>, put: PutRecord)
    requires MessagesOk(waiting, messages, puts)
    ensures MessagesOk(waiting, messages, puts + [put])
  {
    forall x | x in waiting && x.after.Some? ensures CompactionAt(puts + [put], x.after.value, x.chat) {
      assert CompactionAt(puts, x.after.value, x.chat);
    }
    forall pair | pair in messages ensures PairOk(puts + [put], pair) {
      assert PairOk(puts, pair);
    }
  }

  lemma MessageArrive(w: World, c: Chat, due: bool)
    requires MessageInv(w)
    ensures MessageInv(ArriveStep(w, c, due))
  {
    MorePuts(w.waiting, w.messages, w.puts, PutRecord(c, COMPACTION));
  }

  lemma MessageAccept(w: World, i: nat, id: TurnId)
    requires MessageInv(w) && i < |w.waiting|
    ensures MessageInv(AcceptStep(w, i, id))
  {
    var x := w.waiting[i];
    var put := PutRecord(x.chat, Turn(id, false, false));
    MorePuts(w.waiting, w.messages, w.puts, put);
    if x.after.Some? {
      assert CompactionAt(w.puts, x.after.value, x.chat);
      assert PairOk(w.puts + [put], (x.after.value, |w.puts|));
    }
  }

  lemma MessageSilence(w: World, order: seq<Chat>)
    requires MessageInv(w)
    ensures MessageInv(SilenceAll(w, order))
    decreases |order|
  {
    if |order| != 0 && |w.mem.background| < IDLE_COMPACT_MAX_RUNNING {
      MorePuts(w.waiting, w.messages, w.puts, PutRecord(order[0], SILENT));
      MessageSilence(Silence(w, order[0]), order[1..]);
    }
  }

  lemma MessageStep(w: World, ev: Event)
    requires MessageInv(w) && Enabled(w, ev)
    ensures MessageInv(Next(w, ev))
  {
    match ev
    case Arrive(c, threshold) => MessageArrive(w, c, OverThreshold(w.mem.context, c, threshold));
    case Accept(i, id) => MessageAccept(w, i, id);
    case Compact(c) => MorePuts(w.waiting, w.messages, w.puts, PutRecord(c, COMPACTION));
    case Tick(now, _, _, order) => MessageSilence(w.(mem := Refreshed(w.mem, now)), order);
    case Replay(c) => MorePuts(w.waiting, w.messages, w.puts, PutRecord(c, w.plan[c][0]));
    case SessionChanges(_) =>
    case Take(_) =>
    case Move(_, _) =>
    case End(_, _) =>
    case Abort(_) =>
    case Shutdown =>
    case Crash =>
    case Boot(_, _, _) =>
    case Serve =>
  }

  lemma {:induction false} MessageHolds(evs: seq<Event>)
    ensures MessageInv(Exec(evs))
  {
    if evs != [] {
      MessageHolds(evs[..|evs| - 1]);
      if Enabled(Exec(evs[..|evs| - 1]), evs[|evs| - 1]) {
        MessageStep(Exec(evs[..|evs| - 1]), evs[|evs| - 1]);
      }
    }
  }

  lemma InOrder(started: seq<nat>, line: seq<nat>, a: nat, b: nat)
    requires Ascending(started + line) && a < b && b in started
    ensures a !in line
    ensures a in started ==> exists i, j :: 0 <= i < j < |started| && started[i] == a && started[j] == b
  {
    var j :| 0 <= j < |started| && started[j] == b;
    assert (started + line)[j] == b;
    forall i | 0 <= i < |line| ensures line[i] > b {
      assert (started + line)[|started| + i] == line[i];
    }
    if a in started {
      var i :| 0 <= i < |started| && started[i] == a;
      assert (started + line)[i] == a;
      assert i < j;
    }
  }

  /** When a message that triggered a compaction has started, the compaction started
      before it, unless an abort threw the compaction away. */
  lemma CompactionStartsFirst(evs: seq<Event>, n: nat)
    requires n < |Exec(evs).messages|
    ensures var w := Exec(evs);
      var (compaction, message) := w.messages[n];
      && compaction < message < |w.puts|
      && var c := w.puts[message].chat;
      && w.puts[compaction] == PutRecord(c, COMPACTION) && !w.puts[message].turn.compact
      && (message in At(w.starts, c) ==>
            || compaction in w.dropped
            || exists i, j :: 0 <= i < j < |At(w.starts, c)|
                 && At(w.starts, c)[i] == compaction && At(w.starts, c)[j] == message)
  {
    MessageHolds(evs);
    var w := Exec(evs);
    var pair := w.messages[n];
    assert PairOk(w.puts, pair);
    var c := w.puts[pair.1].chat;
    TurnsStartInOrder(evs, c);
    NoTurnIsSkipped(evs, pair.0);
    if pair.1 in At(w.starts, c) { InOrder(At(w.starts, c), At(w.lines, c), pair.0, pair.1); }
  }

  // --- each message is accepted once ---

  /** A message arrives: it waits, with the ticket of the compaction it triggered if it did. */
  lemma ArrivalWaits(w: World, c: Chat, threshold: nat)
    requires Enabled(w, Arrive(c, threshold))
    ensures var w' := Next(w, Arrive(c, threshold));
      var triggers := QueuesAuto(w, Arrive(c, threshold), c);
      && w'.waiting == w.waiting + [Waiting(c, if triggers then Some(|w.puts|) else None)]
      && w'.puts == w.puts + (if triggers then [PutRecord(c, COMPACTION)] else [])
      && w'.messages == w.messages
  {
    OtherNotes(w, Arrive(c, threshold), c);
    ArriveStepWaits(w, c, OverThreshold(w.mem.context, c, threshold));
  }

  lemma ArriveStepWaits(w: World, c: Chat, due: bool)
    ensures var w' := ArriveStep(w, c, due);
      && w'.waiting == w.waiting + [Waiting(c, if due then Some(|w.puts|) else None)]
      && w'.puts == w.puts + (if due then [PutRecord(c, COMPACTION)] else []) && w'.messages == w.messages
  {
  }

  /** It is accepted: it waits no more, its turn is queued in its chat under its own id, and
      the tickets of the two are kept together. */
  lemma AcceptanceQueues(w: World, i: nat, id: TurnId)
    requires Enabled(w, Accept(i, id))
    ensures var w' := Next(w, Accept(i, id));
      && w'.waiting == w.waiting[..i] + w.waiting[i + 1..]
      && w'.puts == w.puts + [PutRecord(w.waiting[i].chat, Turn(id, false, false))]
      && w'.messages == w.messages + (match w.waiting[i].after
                                      case Some(compaction) => [(compaction, |w.puts|)]
                                      case None => [])
  {
    assert Next(w, Accept(i, id)) == AcceptStep(w, i, id);
  }

  lemma SilenceKeepsWaiting(w: World, order: seq<Chat>)
    ensures SilenceAll(w, order).waiting == w.waiting && SilenceAll(w, order).messages == w.messages
    decreases |order|
  {
    if |order| != 0 && |w.mem.background| < IDLE_COMPACT_MAX_RUNNING {
      SilenceKeepsWaiting(Silence(w, order[0]), order[1..]);
    }
  }

  /** Nothing else touches them but a crash. */
  lemma OthersKeepWaiting(w: World, ev: Event)
    requires Enabled(w, ev) && !ev.Arrive? && !ev.Accept?
    ensures Next(w, ev).waiting == (if ev.Crash? then [] else w.waiting)
    ensures Next(w, ev).messages == (if ev.Crash? then [] else w.messages)
  {
    match ev
    case Tick(now, _, _, order) => SilenceKeepsWaiting(w.(mem := Refreshed(w.mem, now)), order);
    case Compact(_) =>
    case Replay(_) =>
    case SessionChanges(_) =>
    case Take(_) =>
    case Move(_, _) =>
    case End(_, _) =>
    case Abort(_) =>
    case Shutdown =>
    case Crash =>
    case Boot(_, _, _) =>
    case Serve =>
  }

  /** The messages of this chat that arrived in this process less those it accepted. */
  ghost function Unaccepted(evs: seq<Event>, c: Chat): int {
    if evs == [] then 0
    else
      var past, ev := evs[..|evs| - 1], evs[|evs| - 1];
      if ev.Crash? then 0
      else if ev.Arrive? && ev.chat == c && Enabled(Exec(past), ev) then Unaccepted(past, c) + 1
      else if ev.Accept? && Enabled(Exec(past), ev) && Exec(past).waiting[ev.index].chat == c then
        Unaccepted(past, c) - 1
      else Unaccepted(past, c)
  }

  function OfChat(waiting: seq<Waiting>, c: Chat): nat {
    if |waiting| == 0 then 0
    else OfChat(waiting[..|waiting| - 1], c) + if waiting[|waiting| - 1].chat == c then 1 else 0
  }

  lemma {:induction false} OfChatWithout(waiting: seq<Waiting>, i: nat, c: Chat)
    requires i < |waiting|
    ensures OfChat(waiting[..i] + waiting[i + 1..], c) == OfChat(waiting, c) - if waiting[i].chat == c then 1 else 0
  {
    var rest := waiting[..i] + waiting[i + 1..];
    if i == |waiting| - 1 {
      assert rest == waiting[..i];
    } else {
      var front := waiting[..|waiting| - 1];
      OfChatWithout(front, i, c);
      assert rest[..|rest| - 1] == front[..i] + front[i + 1..];
    }
  }

  /** In every run each message that arrived is accepted once, or still waits to be; only a
      crash loses one. */
  lemma {:induction false} MessagesAreAcceptedOnce(evs: seq<Event>, c: Chat)
    ensures OfChat(Exec(evs).waiting, c) == Unaccepted(evs, c)
  {
    if evs != [] {
      var past, ev := evs[..|evs| - 1], evs[|evs| - 1];
      var w := Exec(past);
      MessagesAreAcceptedOnce(past, c);
      if Enabled(w, ev) {
        if ev.Arrive? {
          ArrivalWaits(w, ev.chat, ev.threshold);
          assert Next(w, ev).waiting[..|w.waiting|] == w.waiting;
        } else if ev.Accept? {
          AcceptanceQueues(w, ev.index, ev.id);
          OfChatWithout(w.waiting, ev.index, c);
        } else {
          OthersKeepWaiting(w, ev);
        }
      }
    }
  }
}
