/** Admission of scheduled work under a concurrency cap, with workers finishing jobs
    at any time. */
module CronAdmission {
  import opened Options

  type Name = nat
  type ItemKey = nat
  type JobId = nat

  /** A plain prompt's job is keyed by its entry alone. */
  datatype JobKey = JobKey(entry: Name, item: Option<ItemKey>)

  /** The unfinished jobs, and how many ids have been given out. */
  datatype Queue = Queue(jobs: map<JobId, JobKey>, issued: nat)

  function Unfinished(q: Queue, e: Name): set<JobId> { set id | id in q.jobs && q.jobs[id].entry == e }

  function CountUnfinished(q: Queue, e: Name): nat { |Unfinished(q, e)| }

  lemma UnfinishedMeaning(q: Queue, e: Name)
    ensures CountUnfinished(q, e) > 0 <==> exists id :: id in q.jobs && q.jobs[id].entry == e
  {
    if id :| id in q.jobs && q.jobs[id].entry == e { assert id in Unfinished(q, e); }
    if CountUnfinished(q, e) > 0 { var id :| id in Unfinished(q, e); }
  }

  predicate HasUnfinished(q: Queue, key: JobKey) { exists id :: id in q.jobs && q.jobs[id] == key }

  function Enqueue(q: Queue, key: JobKey): Queue { Queue(q.jobs[q.issued := key], q.issued + 1) }

  function Finish(q: Queue, ids: set<JobId>): Queue { q.(jobs := q.jobs - ids) }

  /** What the key's own history and the template say about an item. */
  datatype Verdict = Fine | Held | Unrenderable

  /** One printed item, and the jobs that finished just before it was looked at. */
  datatype Offer = Offer(key: ItemKey, verdict: Verdict, finished: set<JobId>)

  /** Whether an item is queued, given the count taken before the first item and the
      items queued since. */
  predicate Admits(q: Queue, e: Name, cap: nat, outstanding: nat, o: Offer) {
    !HasUnfinished(q, JobKey(e, Some(o.key))) && outstanding < cap && o.verdict.Fine?
  }

  function AdmitAll(q: Queue, e: Name, cap: nat, outstanding: nat, offers: seq<Offer>): Queue
    decreases |offers|
  {
    if |offers| == 0 then q
    else
      var o, q1 := offers[0], Finish(q, offers[0].finished);
      if Admits(q1, e, cap, outstanding, o) then
        AdmitAll(Enqueue(q1, JobKey(e, Some(o.key))), e, cap, outstanding + 1, offers[1..])
      else AdmitAll(q1, e, cap, outstanding, offers[1..])
  }

  function Admitted(q: Queue, e: Name, cap: nat, offers: seq<Offer>): Queue {
    AdmitAll(q, e, cap, CountUnfinished(q, e), offers)
  }

  /** One item further: the jobs that finished go, and the item is queued if and only if no
      unfinished job has its key, its own history and template are fine, and the count
      taken before the first item with those queued since is below the cap. */
  lemma {:induction false} AdmissionOneMore(q: Queue, e: Name, cap: nat, outstanding: nat, offers: seq<Offer>, o: Offer)
    ensures var before := AdmitAll(q, e, cap, outstanding, offers);
      var jobs := before.jobs - o.finished;
      && before.issued >= q.issued
      && AdmitAll(q, e, cap, outstanding, offers + [o])
         == if && (forall id | id in jobs :: jobs[id] != JobKey(e, Some(o.key))) && o.verdict.Fine?
               && outstanding + (before.issued - q.issued) < cap
            then Queue(jobs[before.issued := JobKey(e, Some(o.key))], before.issued + 1)
            else Queue(jobs, before.issued)
    decreases |offers|
  {
    if |offers| == 0 {
      assert offers + [o] == [o] && [o][1..] == [];
    } else {
      assert (offers + [o])[1..] == offers[1..] + [o];
      var q1 := Finish(q, offers[0].finished);
      if Admits(q1, e, cap, outstanding, offers[0]) {
        AdmissionOneMore(Enqueue(q1, JobKey(e, Some(offers[0].key))), e, cap, outstanding + 1, offers[1..], o);
      } else {
        AdmissionOneMore(q1, e, cap, outstanding, offers[1..], o);
      }
    }
  }

  // --- the daemon's runs ---

  datatype Kind = Prompt | Producer(cap: nat) | Command

  /** `tasks` are the commands and producers in flight, by entry. */
  datatype World = World(queue: Queue, tasks: map<nat, Name>, spawned: nat)

  const INIT := World(Queue(map[], 0), map[], 0)

  datatype Event =
    // scheduled, caught up or run-now; a plain prompt may fail to render
    | Fire(name: Name, renders: bool)
    | ProducerEnds(task: nat, offers: seq<Offer>)
    | TaskEnds(task: nat)
    | JobsFinish(ids: set<JobId>)
    | Restart

  predicate IsRunning(w: World, n: Name) { exists d :: d in w.tasks && w.tasks[d] == n }

  function Spawn(w: World, n: Name): World {
    w.(tasks := w.tasks[w.spawned := n], spawned := w.spawned + 1)
  }

  function FireStep(w: World, n: Name, kind: Kind, renders: bool): World {
    match kind
    case Prompt =>
      if CountUnfinished(w.queue, n) > 0 || !renders then w
      else w.(queue := Enqueue(w.queue, JobKey(n, None)))
    case Producer(_) => if IsRunning(w, n) then w else Spawn(w, n)
    case Command => Spawn(w, n)
  }

  function Next(config: map<Name, Kind>, w: World, ev: Event): World {
    match ev
    case Fire(n, renders) => if n in config then FireStep(w, n, config[n], renders) else w
    case ProducerEnds(d, offers) =>
      if d in w.tasks && w.tasks[d] in config && config[w.tasks[d]].Producer? then
        w.(queue := Admitted(w.queue, w.tasks[d], config[w.tasks[d]].cap, offers), tasks := w.tasks - {d})
      else w
    case TaskEnds(d) => w.(tasks := w.tasks - {d})
    case JobsFinish(ids) => w.(queue := Finish(w.queue, ids))
    case Restart => w.(tasks := map[])
  }

  function Exec(config: map<Name, Kind>, evs: seq<Event>): World {
    if |evs| == 0 then INIT else Next(config, Exec(config, evs[..|evs| - 1]), evs[|evs| - 1])
  }

  // --- what one admission keeps ---

  /** Ids are fresh and no two unfinished jobs share a key. */
  ghost predicate QueueOk(q: Queue) {
    && (forall id | id in q.jobs :: id < q.issued)
    && (forall i, j | i in q.jobs && j in q.jobs && i != j :: q.jobs[i] != q.jobs[j])
  }

  lemma EnqueueCounts(q: Queue, key: JobKey, e: Name)
    requires QueueOk(q)
    ensures CountUnfinished(Enqueue(q, key), e) == CountUnfinished(q, e) + if key.entry == e then 1 else 0
  {
    var q' := Enqueue(q, key);
    assert Unfinished(q', e) == Unfinished(q, e) + if key.entry == e then {q.issued} else {};
  }

  lemma FinishCounts(q: Queue, ids: set<JobId>, e: Name)
    ensures CountUnfinished(Finish(q, ids), e) <= CountUnfinished(q, e)
  {
    assert Unfinished(q, e) == Unfinished(Finish(q, ids), e) + (Unfinished(q, e) - Unfinished(Finish(q, ids), e));
  }

  /** Whatever the items, duplicates included, and whatever finishes meanwhile: keys
      stay distinct, the entry stays under its cap, no other entry gains a job. */
  lemma {:induction false} AdmissionIsSafe(q: Queue, e: Name, cap: nat, outstanding: nat, offers: seq<Offer>)
    requires QueueOk(q) && CountUnfinished(q, e) <= outstanding <= cap
    ensures var q' := AdmitAll(q, e, cap, outstanding, offers);
      && QueueOk(q') && q.issued <= q'.issued
      && CountUnfinished(q', e) <= cap
      && (forall b | b != e :: CountUnfinished(q', b) <= CountUnfinished(q, b))
    decreases |offers|
  {
    if |offers| != 0 {
      var o, q1 := offers[0], Finish(q, offers[0].finished);
      forall b ensures CountUnfinished(q1, b) <= CountUnfinished(q, b) { FinishCounts(q, o.finished, b); }
      var key := JobKey(e, Some(o.key));
      if Admits(q1, e, cap, outstanding, o) {
        forall b ensures CountUnfinished(Enqueue(q1, key), b)
          == CountUnfinished(q1, b) + if key.entry == b then 1 else 0 { EnqueueCounts(q1, key, b); }
        AdmissionIsSafe(Enqueue(q1, key), e, cap, outstanding + 1, offers[1..]);
      } else {
        AdmissionIsSafe(q1, e, cap, outstanding, offers[1..]);
      }
    }
  }

  /** A cap already exceeded lets nothing in. */
  lemma {:induction false} OverCapAdmitsNothing(q: Queue, e: Name, cap: nat, outstanding: nat, offers: seq<Offer>)
    requires QueueOk(q) && cap <= outstanding
    ensures var q' := AdmitAll(q, e, cap, outstanding, offers);
      && QueueOk(q') && q'.issued == q.issued
      && forall id | id in q'.jobs :: id in q.jobs && q'.jobs[id] == q.jobs[id]
    decreases |offers|
  {
    if |offers| != 0 { OverCapAdmitsNothing(Finish(q, offers[0].finished), e, cap, outstanding, offers[1..]); }
  }

  /** Nothing is held back without a reason: when no job finishes meanwhile and no
      item's own history or template stands in the way, every printed key is unfinished
      afterwards or the entry is exactly at its cap. */
  lemma {:induction false} AdmissionIsGreedy(q: Queue, e: Name, cap: nat, offers: seq<Offer>)
    requires QueueOk(q) && CountUnfinished(q, e) <= cap
    requires forall i | 0 <= i < |offers| :: offers[i].verdict.Fine? && offers[i].finished == {}
    ensures var q' := Admitted(q, e, cap, offers);
      && (forall id | id in q.jobs :: id in q'.jobs && q'.jobs[id] == q.jobs[id])
      && (CountUnfinished(q', e) == cap
          || forall i | 0 <= i < |offers| :: HasUnfinished(q', JobKey(e, Some(offers[i].key))))
    decreases |offers|
  {
    if |offers| != 0 {
      var o, rest := offers[0], offers[1..];
      var key := JobKey(e, Some(o.key));
      assert Finish(q, o.finished) == q;
      var q1 := if Admits(q, e, cap, CountUnfinished(q, e), o) then Enqueue(q, key) else q;
      EnqueueCounts(q, key, e);
      assert Admitted(q, e, cap, offers) == Admitted(q1, e, cap, rest);
      AdmissionIsGreedy(q1, e, cap, rest);
      var q' := Admitted(q1, e, cap, rest);
      AtCapStays(q1, e, cap, rest);
      if CountUnfinished(q', e) != cap {
        assert q1 != q ==> q1.jobs[q.issued] == key;
        assert HasUnfinished(q1, key);
        var id :| id in q1.jobs && q1.jobs[id] == key;
        assert id in q'.jobs && q'.jobs[id] == key;
        forall i | 0 <= i < |offers| ensures HasUnfinished(q', JobKey(e, Some(offers[i].key))) {
          if i != 0 { assert offers[i] == rest[i - 1]; }
        }
      }
    }
  }

  lemma AtCapStays(q: Queue, e: Name, cap: nat, offers: seq<Offer>)
    requires QueueOk(q) && forall i | 0 <= i < |offers| :: offers[i].finished == {}
    ensures CountUnfinished(q, e) == cap ==> Admitted(q, e, cap, offers) == q
    decreases |offers|
  {
    if |offers| != 0 {
      assert Finish(q, offers[0].finished) == q;
      AtCapStays(q, e, cap, offers[1..]);
    }
  }

  // --- what every run keeps ---

  ghost predicate Inv(config: map<Name, Kind>, w: World) {
    && QueueOk(w.queue)
    && (forall n | n in config && config[n].Producer? :: CountUnfinished(w.queue, n) <= config[n].cap)
    && (forall n | n in config && config[n].Prompt? :: CountUnfinished(w.queue, n) <= 1)
    && (forall d | d in w.tasks :: d < w.spawned)
    && (forall c, d | c in w.tasks && d in w.tasks && c != d && w.tasks[c] == w.tasks[d] ::
          w.tasks[c] in config && config[w.tasks[c]].Command?)
  }

  lemma FireInv(config: map<Name, Kind>, w: World, n: Name, renders: bool)
    requires Inv(config, w) && n in config
    ensures Inv(config, FireStep(w, n, config[n], renders))
  {
    var key := JobKey(n, None);
    forall b ensures CountUnfinished(Enqueue(w.queue, key), b)
      == CountUnfinished(w.queue, b) + if key.entry == b then 1 else 0 { EnqueueCounts(w.queue, key, b); }
    if CountUnfinished(w.queue, n) == 0 {
      forall id | id in w.queue.jobs ensures w.queue.jobs[id].entry != n {
        assert id !in Unfinished(w.queue, n);
      }
    }
  }

  lemma AdmitInv(config: map<Name, Kind>, w: World, d: nat, offers: seq<Offer>)
    requires Inv(config, w) && d in w.tasks && w.tasks[d] in config && config[w.tasks[d]].Producer?
    ensures Inv(config, Next(config, w, ProducerEnds(d, offers)))
  {
    var n := w.tasks[d];
    AdmissionIsSafe(w.queue, n, config[n].cap, CountUnfinished(w.queue, n), offers);
  }

  lemma StepInv(config: map<Name, Kind>, w: World, ev: Event)
    requires Inv(config, w)
    ensures Inv(config, Next(config, w, ev))
  {
    match ev
    case Fire(n, renders) => if n in config { FireInv(config, w, n, renders); }
    case ProducerEnds(d, offers) =>
      if d in w.tasks && w.tasks[d] in config && config[w.tasks[d]].Producer? { AdmitInv(config, w, d, offers); }
    case TaskEnds(d) =>
    case JobsFinish(ids) =>
      forall n ensures CountUnfinished(Finish(w.queue, ids), n) <= CountUnfinished(w.queue, n) {
        FinishCounts(w.queue, ids, n);
      }
    case Restart =>
  }

  lemma {:induction false} Holds(config: map<Name, Kind>, evs: seq<Event>)
    ensures Inv(config, Exec(config, evs))
  {
    if |evs| == 0 {
      forall n ensures CountUnfinished(INIT.queue, n) == 0 { assert Unfinished(INIT.queue, n) == {}; }
    } else {
      Holds(config, evs[..|evs| - 1]);
      StepInv(config, Exec(config, evs[..|evs| - 1]), evs[|evs| - 1]);
    }
  }

  /** With a fixed configuration, over every run: a producer entry never has more
      unfinished jobs than its cap, a plain prompt never more than one, no two
      unfinished jobs share a key, and an entry's producer never overlaps itself. */
  lemma CapsHold(config: map<Name, Kind>, evs: seq<Event>, n: Name)
    requires n in config
    ensures var w := Exec(config, evs);
      && (config[n].Producer? ==> CountUnfinished(w.queue, n) <= config[n].cap)
      && (config[n].Prompt? ==> CountUnfinished(w.queue, n) <= 1)
      && (forall i, j | i in w.queue.jobs && j in w.queue.jobs && i != j :: w.queue.jobs[i] != w.queue.jobs[j])
      && (!config[n].Command? ==>
            forall c, d | c in w.tasks && d in w.tasks && w.tasks[c] == n && w.tasks[d] == n :: c == d)
  {
    Holds(config, evs);
  }

  /** `after` is `before` with one new task of this entry. */
  predicate OneMoreTask(before: World, after: World, n: Name) {
    && before.spawned !in before.tasks && after.tasks == before.tasks[before.spawned := n]
    && after.spawned > before.spawned && after.queue == before.queue
  }

  /** What firing an entry does, in every run: a command always starts, a producer unless
      one of its own is in flight, and a plain prompt is queued unless one is unfinished
      or it does not render. */
  lemma FiringMeaning(config: map<Name, Kind>, evs: seq<Event>, n: Name, renders: bool)
    requires n in config
    ensures var w, w' := Exec(config, evs), Next(config, Exec(config, evs), Fire(n, renders));
      match config[n]
      case Command => OneMoreTask(w, w', n)
      case Producer(_) =>
        && ((exists d :: d in w.tasks && w.tasks[d] == n) ==> w' == w)
        && ((forall d | d in w.tasks :: w.tasks[d] != n) ==> OneMoreTask(w, w', n))
      case Prompt =>
        && w'.tasks == w.tasks
        && (!renders || (exists id :: id in w.queue.jobs && w.queue.jobs[id].entry == n) ==> w'.queue == w.queue)
        && (renders && (forall id | id in w.queue.jobs :: w.queue.jobs[id].entry != n) ==>
              && w.queue.issued !in w.queue.jobs && w'.queue.issued > w.queue.issued
              && w'.queue.jobs == w.queue.jobs[w.queue.issued := JobKey(n, None)])
  {
    Holds(config, evs);
    UnfinishedMeaning(Exec(config, evs).queue, n);
  }

  /** A task is in flight until it ends or the daemon restarts, and a job unfinished until
      a worker finishes it, restarts or not; a producer that ends has its items admitted. */
  lemma EndingMeaning(config: map<Name, Kind>, w: World, d: nat, offers: seq<Offer>, ids: set<JobId>)
    ensures forall c :: c in Next(config, w, TaskEnds(d)).tasks <==> c in w.tasks && c != d
    ensures Next(config, w, TaskEnds(d)).queue == w.queue
    ensures d in w.tasks && w.tasks[d] in config && config[w.tasks[d]].Producer? ==>
      var w' := Next(config, w, ProducerEnds(d, offers));
      && (forall c :: c in w'.tasks <==> c in w.tasks && c != d)
      && w'.queue == Admitted(w.queue, w.tasks[d], config[w.tasks[d]].cap, offers)
    ensures forall id :: id in Next(config, w, JobsFinish(ids)).queue.jobs <==> id in w.queue.jobs && id !in ids
    ensures Next(config, w, JobsFinish(ids)).tasks == w.tasks
    ensures Next(config, w, Restart).tasks == map[] && Next(config, w, Restart).queue == w.queue
  {
  }

  class Admission {
    var queue: Queue

    constructor ()
      ensures queue == Queue(map[], 0)
    {
      queue := Queue(map[], 0);
    }

    /** `_admit`: the loop over one producer's items. */
    method Admit(e: Name, cap: nat, offers: seq<Offer>) returns (enqueued: nat, failures: nat)
      modifies `queue
      ensures queue == Admitted(old(queue), e, cap, offers)
      ensures queue.issued == old(queue.issued) + enqueued
    {
      var outstanding: nat := CountUnfinished(queue, e);
      enqueued, failures := 0, 0;
      var i := 0;
      while i < |offers|
        invariant 0 <= i <= |offers|
        invariant AdmitAll(queue, e, cap, outstanding, offers[i..]) == Admitted(old(queue), e, cap, offers)
        invariant queue.issued == old(queue.issued) + enqueued
      {
        var o := offers[i];
        assert offers[i..][1..] == offers[i + 1..];
        queue := Finish(queue, o.finished);
        i := i + 1;
        if HasUnfinished(queue, JobKey(e, Some(o.key))) { continue; }
        if outstanding >= cap { continue; }
        if o.verdict.Held? { continue; }
        if o.verdict.Unrenderable? { failures := failures + 1; continue; }
        queue := Enqueue(queue, JobKey(e, Some(o.key)));
        outstanding := outstanding + 1;
        enqueued := enqueued + 1;
      }
    }

    method EnqueuePlain(e: Name, renders: bool)
      modifies `queue
      ensures forall w: World | w.queue == old(queue) :: queue == FireStep(w, e, Prompt, renders).queue
      ensures queue ==
        if !renders || exists id :: id in old(queue).jobs && old(queue).jobs[id].entry == e then old(queue)
        else Queue(old(queue).jobs[old(queue).issued := JobKey(e, None)], old(queue).issued + 1)
    {
      UnfinishedMeaning(queue, e);
      if CountUnfinished(queue, e) > 0 || !renders { return; }
      queue := Enqueue(queue, JobKey(e, None));
    }
  }
}
