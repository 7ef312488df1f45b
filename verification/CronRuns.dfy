/** The cron daemon's schedule keeping as a step machine: loop wakes, config reloads,
    crashes at any point and restarts with catch-up. */
module CronRuns {
  import opened Options
  import opened CronTimes

  type Name = nat
  type Expr = nat

  /** What each cron expression means. */
  type Calendar = Expr -> Schedule

  ghost predicate CalendarOk(cal: Calendar) { forall e :: Increasing(cal(e)) }

  datatype Entry = Entry(expr: Expr, catchUp: Option<nat>)
  datatype EntryState = EntryState(entry: Entry, nextFire: int)   // in whole seconds, like every occurrence

  /** The durable note of the last scheduled fire, to the second, with the expression it
      came from. */
  datatype Record = Record(at: int, expr: Expr)

  datatype Fire = Fire(name: Name, entry: Entry, at: int)

  /** What the process is doing. `todo` are the entries the start-up or the current
      wake has still to visit; `due` is a fire that is recorded and not yet started. */
  datatype Stage = Down | CatchingUp | Looping

  datatype World = World(
    stage: Stage,
    state: map<Name, EntryState>,
    todo: seq<Name>,
    now: int,
    due: Option<Fire>,
    records: map<Name, Record>,
    clock: int,
    fired: seq<Fire>)

  function Init(clock: int): World { World(Down, map[], [], clock, None, map[], clock, []) }

  datatype Event =
    // `scheduledAt` is the clock as `reload` read it, `now` as the catch-up did
    | Start(config: map<Name, Entry>, scheduledAt: int, now: int, order: seq<Name>)
    | Reload(config: map<Name, Entry>, now: int)
    | Wake(now: int, order: seq<Name>)
    | Visit
    | Begin
    | Crash

  /** `order` lists each entry once. */
  ghost predicate Lists(order: seq<Name>, names: set<Name>) {
    (forall n :: n in order <==> n in names) && (forall i, j | 0 <= i < j < |order| :: order[i] != order[j])
  }

  predicate Resting(w: World) { !w.stage.Down? && |w.todo| == 0 && w.due.None? }

  ghost predicate Enabled(w: World, ev: Event) {
    match ev
    case Start(config, scheduledAt, now, order) =>
      w.stage.Down? && w.clock <= scheduledAt <= now && Lists(order, config.Keys)
    case Reload(_, now) => Resting(w) && w.clock <= now
    case Wake(now, order) => Resting(w) && w.clock <= now && Lists(order, w.state.Keys)
    case Visit => !w.stage.Down? && w.due.None? && |w.todo| != 0
    case Begin => w.due.Some?
    case Crash => true
  }

  /** The entries after a (re)load: an unchanged expression keeps its pending fire. */
  function Loaded(cal: Calendar, state: map<Name, EntryState>, config: map<Name, Entry>, now: int)
    : map<Name, EntryState>
    requires CalendarOk(cal)
  {
    map n | n in config :: LoadedOne(cal, state, n, config[n], now)
  }

  function LoadedOne(cal: Calendar, state: map<Name, EntryState>, n: Name, e: Entry, now: int): EntryState
    requires CalendarOk(cal)
  {
    if n in state && state[n].entry.expr == e.expr then EntryState(e, state[n].nextFire)
    else EntryState(e, NextFire(cal(e.expr), now))
  }

  /** What the start-up does for one entry: the record it leaves, and whether it fires. */
  datatype Catch = Catch(record: Option<Record>, fire: bool)

  function CatchUp(cal: Calendar, e: Entry, last: Option<Record>, now: int): Catch
    requires CalendarOk(cal)
  {
    if last.None? || last.value.expr != e.expr then Catch(Some(Record(Secs(now), e.expr)), false)
    else
      var latest := PrevFire(cal(e.expr), now + SECOND);
      if latest <= last.value.at then Catch(None, false)
      else if e.catchUp.Some? && now - Moment(latest) <= Moment(e.catchUp.value) then
        Catch(Some(Record(latest, e.expr)), true)
      else Catch(Some(Record(Secs(now), e.expr)), false)
  }

  function RecordOf(records: map<Name, Record>, n: Name): Option<Record> {
    if n in records then Some(records[n]) else None
  }

  function CatchUpStep(cal: Calendar, w: World, n: Name): World
    requires CalendarOk(cal) && n in w.state
  {
    var e := w.state[n].entry;
    var c := CatchUp(cal, e, RecordOf(w.records, n), w.now);
    w.(records := if c.record.Some? then w.records[n := c.record.value] else w.records,
       due := if c.fire && c.record.Some? then Some(Fire(n, e, c.record.value.at)) else None)
  }

  /** One entry of a wake: due entries are rescheduled, recorded, then fired. */
  function LoopStep(cal: Calendar, w: World, n: Name): World
    requires CalendarOk(cal) && n in w.state
  {
    var s := w.state[n];
    if Moment(s.nextFire) > w.now then w
    else
      w.(state := w.state[n := EntryState(s.entry, NextFire(cal(s.entry.expr), w.now))],
         records := w.records[n := Record(s.nextFire, s.entry.expr)],
         due := Some(Fire(n, s.entry, s.nextFire)))
  }

  function VisitStep(cal: Calendar, w: World): World
    requires CalendarOk(cal) && |w.todo| != 0
  {
    var n := w.todo[0];
    var w1 := w.(todo := w.todo[1..]);
    if n !in w.state then w1
    else if w.stage.CatchingUp? then CatchUpStep(cal, w1, n) else LoopStep(cal, w1, n)
  }

  ghost function Next(cal: Calendar, w: World, ev: Event): World
    requires CalendarOk(cal)
  {
    if !Enabled(w, ev) then w else
    match ev
    case Start(config, scheduledAt, now, order) =>
      w.(stage := CatchingUp, state := Loaded(cal, map[], config, scheduledAt), todo := order, now := now, clock := now)
    case Reload(config, now) => w.(state := Loaded(cal, w.state, config, now), clock := now)
    case Wake(now, order) => w.(stage := Looping, todo := order, now := now, clock := now)
    case Visit => VisitStep(cal, w)
    case Begin => w.(fired := w.fired + [w.due.value], due := None)
    case Crash => w.(stage := Down, state := map[], todo := [], due := None)
  }

  ghost function Exec(cal: Calendar, clock: int, evs: seq<Event>): World
    requires CalendarOk(cal)
  {
    if evs == [] then Init(clock) else Next(cal, Exec(cal, clock, evs[..|evs| - 1]), evs[|evs| - 1])
  }

  // --- what every run keeps ---

  /** Whatever is about to fire is on record as just that. */
  predicate DueRecorded(w: World) {
    w.due.Some? ==> w.due.value.name in w.records && w.records[w.due.value.name].at == w.due.value.at
  }

  predicate RecordsNear(records: map<Name, Record>, clock: int) {
    forall n | n in records :: Moment(records[n].at) < clock + SECOND
  }

  ghost predicate PendingOccurs(cal: Calendar, state: map<Name, EntryState>) {
    forall n | n in state :: Occurs(cal(state[n].entry.expr), state[n].nextFire)
  }

  ghost predicate FireOccurs(cal: Calendar, fire: Fire) { Occurs(cal(fire.entry.expr), fire.at) }

  ghost predicate Inv(cal: Calendar, w: World) {
    && DueRecorded(w) && RecordsNear(w.records, w.clock) && PendingOccurs(cal, w.state)
    && (w.due.Some? ==> FireOccurs(cal, w.due.value))
    && (forall fire | fire in w.fired :: FireOccurs(cal, fire))
    && (|w.todo| != 0 ==> w.now == w.clock)
  }

  lemma LoadedOccurs(cal: Calendar, state: map<Name, EntryState>, config: map<Name, Entry>, now: int)
    requires CalendarOk(cal) && PendingOccurs(cal, state)
    ensures PendingOccurs(cal, Loaded(cal, state, config, now))
  {
  }

  lemma CatchUpInv(cal: Calendar, w: World, n: Name)
    requires CalendarOk(cal) && RecordsNear(w.records, w.now) && n in w.state
    ensures var w' := CatchUpStep(cal, w, n);
      && RecordsNear(w'.records, w.now) && DueRecorded(w') && (w'.due.Some? ==> FireOccurs(cal, w'.due.value))
      && w'.state == w.state && w'.fired == w.fired && w'.now == w.now && w'.clock == w.clock && w'.todo == w.todo
  {
    CatchUpMeaning(cal, w.state[n].entry, RecordOf(w.records, n), w.now);
  }

  lemma LoopInv(cal: Calendar, w: World, n: Name)
    requires CalendarOk(cal) && RecordsNear(w.records, w.now) && PendingOccurs(cal, w.state)
    requires n in w.state && w.due.None?
    ensures var w' := LoopStep(cal, w, n);
      && RecordsNear(w'.records, w.now) && DueRecorded(w') && (w'.due.Some? ==> FireOccurs(cal, w'.due.value))
      && PendingOccurs(cal, w'.state)
      && w'.fired == w.fired && w'.now == w.now && w'.clock == w.clock && w'.todo == w.todo
  {
  }

  lemma VisitInv(cal: Calendar, w: World)
    requires CalendarOk(cal) && Inv(cal, w) && Enabled(w, Visit)
    ensures Inv(cal, VisitStep(cal, w))
  {
    var n, w1 := w.todo[0], w.(todo := w.todo[1..]);
    if n in w.state {
      if w.stage.CatchingUp? { CatchUpInv(cal, w1, n); } else { LoopInv(cal, w1, n); }
    }
  }

  lemma StepInv(cal: Calendar, w: World, ev: Event)
    requires CalendarOk(cal) && Inv(cal, w)
    ensures Inv(cal, Next(cal, w, ev))
  {
    if Enabled(w, ev) {
      match ev
      case Start(config, scheduledAt, _, _) => LoadedOccurs(cal, map[], config, scheduledAt);
      case Reload(config, now) => LoadedOccurs(cal, w.state, config, now);
      case Wake(_, _) =>
      case Visit => VisitInv(cal, w);
      case Begin =>
      case Crash =>
    }
  }

  lemma {:induction false} Holds(cal: Calendar, clock: int, evs: seq<Event>)
    requires CalendarOk(cal)
    ensures Inv(cal, Exec(cal, clock, evs))
  {
    if evs != [] {
      Holds(cal, clock, evs[..|evs| - 1]);
      StepInv(cal, Exec(cal, clock, evs[..|evs| - 1]), evs[|evs| - 1]);
    }
  }

  /** This fire was started by a step before which it was on record. */
  ghost predicate StartedOnRecord(cal: Calendar, clock: int, evs: seq<Event>, fire: Fire, j: nat)
    requires CalendarOk(cal)
  {
    && j < |evs| && evs[j].Begin?
    && (var w := Exec(cal, clock, evs[..j]);
        w.due == Some(fire) && fire.name in w.records && w.records[fire.name].at == fire.at)
  }

  /** Every fire of every run was on record, durably and as just that occurrence, before
      it started. */
  lemma {:induction false} RecordedBeforeFired(cal: Calendar, clock: int, evs: seq<Event>, i: nat) returns (j: nat)
    requires CalendarOk(cal) && i < |Exec(cal, clock, evs).fired|
    ensures StartedOnRecord(cal, clock, evs, Exec(cal, clock, evs).fired[i], j)
  {
    if evs != [] {
      var past, ev := evs[..|evs| - 1], evs[|evs| - 1];
      Holds(cal, clock, past);
      if i < |Exec(cal, clock, past).fired| {
        j := RecordedBeforeFired(cal, clock, past, i);
        assert past[..j] == evs[..j] && past[j] == evs[j];
        FiredGrows(cal, Exec(cal, clock, past), ev);
      } else {
        FiredGrows(cal, Exec(cal, clock, past), ev);
        j := |evs| - 1;
      }
    }
  }

  lemma FiredGrows(cal: Calendar, w: World, ev: Event)
    requires CalendarOk(cal)
    ensures var fired := Next(cal, w, ev).fired;
      fired == w.fired || (ev.Begin? && w.due.Some? && fired == w.fired + [w.due.value])
  {
  }

  /** A record is less than a second ahead of the clock, in every run; and an event puts
      one ahead if and only if it is the catch-up of an occurrence that is less than a
      second away. */
  lemma RecordsAreHardlyAhead(cal: Calendar, clock: int, evs: seq<Event>, ev: Event, n: Name)
    requires CalendarOk(cal)
    ensures var w := Exec(cal, clock, evs);
      && (forall m | m in w.records :: Moment(w.records[m].at) < w.clock + SECOND)
      && (Enabled(w, ev) && !Ahead(w, n) ==> (Ahead(Next(cal, w, ev), n) <==> CatchesUpEarly(cal, w, ev, n)))
  {
    Holds(cal, clock, evs);
    var w := Exec(cal, clock, evs);
    if Enabled(w, ev) && ev.Visit? && !Ahead(w, n) { VisitPutsAhead(cal, w, n); }
  }

  predicate Ahead(w: World, n: Name) { n in w.records && Moment(w.records[n].at) > w.clock }

  /** The visit of an entry that is caught up although what it fires has not come yet. */
  ghost predicate CatchesUpEarly(cal: Calendar, w: World, ev: Event, n: Name)
    requires CalendarOk(cal)
  {
    && ev.Visit? && w.stage.CatchingUp? && |w.todo| != 0 && w.todo[0] == n && n in w.state
    && CatchUp(cal, w.state[n].entry, RecordOf(w.records, n), w.now).fire
    && exists i :: w.now < Moment(cal(w.state[n].entry.expr)(i)) < w.now + SECOND
  }

  lemma CatchUpAhead(cal: Calendar, e: Entry, last: Option<Record>, now: int)
    requires CalendarOk(cal)
    ensures var c := CatchUp(cal, e, last, now);
      c.record.Some? && Moment(c.record.value.at) > now
      <==> c.fire && exists i :: now < Moment(cal(e.expr)(i)) < now + SECOND
  {
    CatchUpMeaning(cal, e, last, now);
    var c := CatchUp(cal, e, last, now);
    if c.fire && Moment(c.record.value.at) > now { var i :| cal(e.expr)(i) == c.record.value.at; }
  }

  lemma VisitPutsAhead(cal: Calendar, w: World, n: Name)
    requires CalendarOk(cal) && Inv(cal, w) && Enabled(w, Visit) && !Ahead(w, n)
    ensures Ahead(VisitStep(cal, w), n) <==> CatchesUpEarly(cal, w, Visit, n)
  {
    var m, w1 := w.todo[0], w.(todo := w.todo[1..]);
    if m in w.state {
      if w.stage.CatchingUp? {
        CatchUpAhead(cal, w.state[m].entry, RecordOf(w.records, m), w.now);
        assert VisitStep(cal, w) == CatchUpStep(cal, w1, m);
      } else {
        assert VisitStep(cal, w) == LoopStep(cal, w1, m);
      }
    }
  }

  // --- what a start-up does ---

  /** A start-up fires an entry exactly when its expression is the recorded one and an
      occurrence since, less than a second ahead at most, is inside the window; and then
      it fires the latest such one. What it records otherwise is the second it is in. */
  lemma CatchUpMeaning(cal: Calendar, e: Entry, last: Option<Record>, now: int)
    requires CalendarOk(cal)
    ensures var c := CatchUp(cal, e, last, now);
      var s := cal(e.expr);
      && (c.fire <==>
            && last.Some? && last.value.expr == e.expr && e.catchUp.Some?
            && exists i :: && last.value.at < s(i) && Moment(s(i)) < now + SECOND
                           && now - Moment(s(i)) <= Moment(e.catchUp.value))
      && (c.fire ==>
            && c.record.Some? && Occurs(s, c.record.value.at)
            && last.value.at < c.record.value.at && Moment(c.record.value.at) < now + SECOND
            && forall i :: Moment(s(i)) < now + SECOND ==> s(i) <= c.record.value.at)
      && (!c.fire && c.record.Some? ==> c.record.value.at == Secs(now))
  {
    var s := cal(e.expr);
    var latest := PrevFire(s, now + SECOND);
    var k :| s(k) == latest;
    if last.Some? && e.catchUp.Some? {
      forall i | last.value.at < s(i) && Moment(s(i)) < now + SECOND && now - Moment(s(i)) <= Moment(e.catchUp.value)
        ensures last.value.at < latest && now - Moment(latest) <= Moment(e.catchUp.value) {}
    }
  }

  /** It records something, under the current expression, unless that is the recorded one
      and nothing of it came since. */
  lemma CatchUpRecords(cal: Calendar, e: Entry, last: Option<Record>, now: int)
    requires CalendarOk(cal)
    ensures var record := CatchUp(cal, e, last, now).record;
      && (record.Some? ==> record.value.expr == e.expr)
      && (record.None? <==> && last.Some? && last.value.expr == e.expr
                            && forall i :: last.value.at < cal(e.expr)(i) ==> now + SECOND <= Moment(cal(e.expr)(i)))
  {
    var latest := PrevFire(cal(e.expr), now + SECOND);
    var k :| cal(e.expr)(k) == latest;
  }
}
