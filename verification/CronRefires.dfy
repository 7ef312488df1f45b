/** Why no occurrence of a cron entry fires twice, and the one start-up that breaks it. */
module CronRefires {
  import opened Options
  import opened CronTimes
  import opened CronRuns

  // --- one entry over any run ---

  /** No occurrence of an entry strictly between two moments. */
  ghost predicate Clear(cal: Calendar, e: Entry, from: int, until: int) {
    forall i :: !(from < Moment(cal(e.expr)(i)) < until)
  }

  /** No start-up catches this entry up while an occurrence of it lies between the clock
      reading it was scheduled from and a second past the one it is caught up at. */
  ghost predicate Steadily(cal: Calendar, w: World, ev: Event, n: Name)
    requires CalendarOk(cal)
  {
    ev.Start? && Enabled(w, ev) && n in ev.config
      && CatchUp(cal, ev.config[n], RecordOf(w.records, n), ev.now).fire ==>
      Clear(cal, ev.config[n], ev.scheduledAt, ev.now + SECOND)
  }

  ghost predicate SteadyFor(cal: Calendar, clock: int, evs: seq<Event>, n: Name)
    requires CalendarOk(cal)
  {
    forall i | 0 <= i < |evs| :: Steadily(cal, Exec(cal, clock, evs[..i]), evs[i], n)
  }

  /** The times of this entry's fires lie below `t`. */
  ghost predicate Below(fired: seq<Fire>, n: Name, t: int) {
    forall i | 0 <= i < |fired| && fired[i].name == n :: fired[i].at < t
  }

  ghost predicate FiresRise(cal: Calendar, fired: seq<Fire>, records: map<Name, Record>, n: Name) {
    && (forall i, j | 0 <= i < j < |fired| && fired[i].name == fired[j].name == n :: fired[i].at < fired[j].at)
    && (forall i | 0 <= i < |fired| && fired[i].name == n ::
          Occurs(cal(fired[i].entry.expr), fired[i].at) && n in records && fired[i].at <= records[n].at)
  }

  ghost predicate DueRises(cal: Calendar, w: World, n: Name) {
    w.due.Some? && w.due.value.name == n ==>
      && Occurs(cal(w.due.value.entry.expr), w.due.value.at) && Below(w.fired, n, w.due.value.at)
      && n in w.records && w.records[n].at == w.due.value.at
      && (n in w.state ==> w.due.value.at < w.state[n].nextFire)
  }

  ghost predicate PendingRises(cal: Calendar, w: World, n: Name) {
    n in w.state ==>
      Occurs(cal(w.state[n].entry.expr), w.state[n].nextFire) && Below(w.fired, n, w.state[n].nextFire)
  }

  /** Until this entry's turn of the catch-up, what it would fire is before its pending,
      and has come. */
  ghost predicate CatchesBefore(cal: Calendar, w: World, n: Name)
    requires CalendarOk(cal)
  {
    w.stage.CatchingUp? && n in w.todo && n in w.state ==>
      var c := CatchUp(cal, w.state[n].entry, RecordOf(w.records, n), w.now);
      c.fire && c.record.Some? ==> c.record.value.at < w.state[n].nextFire && Moment(c.record.value.at) <= w.now
  }

  ghost predicate EntryInv(cal: Calendar, w: World, n: Name)
    requires CalendarOk(cal)
  {
    && FiresRise(cal, w.fired, w.records, n) && DueRises(cal, w, n) && PendingRises(cal, w, n)
    && CatchesBefore(cal, w, n)
    && (n in w.records ==> Moment(w.records[n].at) <= w.clock)
    && (|w.todo| != 0 ==> w.now == w.clock)
    && (w.stage.Down? ==> w.due.None? && w.state == map[] && w.todo == [])
    && (forall i, j | 0 <= i < j < |w.todo| :: w.todo[i] != w.todo[j])
  }

  lemma PendingAfter(cal: Calendar, fired: seq<Fire>, records: map<Name, Record>, n: Name, clock: int, e: Entry,
                     now: int)
    requires CalendarOk(cal) && FiresRise(cal, fired, records, n)
    requires (n in records ==> Moment(records[n].at) <= clock) && clock <= now
    ensures Below(fired, n, NextFire(cal(e.expr), now)) && Occurs(cal(e.expr), NextFire(cal(e.expr), now))
  {
  }

  /** What a steady start-up catches up has come before the schedule was read. */
  lemma SteadyCatch(cal: Calendar, e: Entry, last: Option<Record>, scheduledAt: int, now: int)
    requires CalendarOk(cal) && scheduledAt <= now && CatchUp(cal, e, last, now).fire
    requires Clear(cal, e, scheduledAt, now + SECOND)
    ensures var c := CatchUp(cal, e, last, now);
      && c.record.Some? && Moment(c.record.value.at) <= scheduledAt
      && c.record.value.at < NextFire(cal(e.expr), scheduledAt)
  {
    CatchUpMeaning(cal, e, last, now);
    var i :| cal(e.expr)(i) == CatchUp(cal, e, last, now).record.value.at;
  }

  lemma EntryStart(cal: Calendar, w: World, ev: Event, n: Name)
    requires CalendarOk(cal) && EntryInv(cal, w, n) && ev.Start? && Enabled(w, ev) && Steadily(cal, w, ev, n)
    ensures EntryInv(cal, Next(cal, w, ev), n)
  {
    var w' := Next(cal, w, ev);
    if n in ev.config {
      var e := ev.config[n];
      PendingAfter(cal, w.fired, w.records, n, w.clock, e, ev.scheduledAt);
      assert w'.state[n] == EntryState(e, NextFire(cal(e.expr), ev.scheduledAt));
      if CatchUp(cal, e, RecordOf(w.records, n), ev.now).fire {
        SteadyCatch(cal, e, RecordOf(w.records, n), ev.scheduledAt, ev.now);
      }
    }
  }

  lemma EntryReload(cal: Calendar, w: World, config: map<Name, Entry>, now: int, n: Name)
    requires CalendarOk(cal) && EntryInv(cal, w, n) && Enabled(w, Reload(config, now))
    ensures EntryInv(cal, Next(cal, w, Reload(config, now)), n)
  {
    if n in config {
      PendingAfter(cal, w.fired, w.records, n, w.clock, config[n], now);
      assert Loaded(cal, w.state, config, now)[n] == LoadedOne(cal, w.state, n, config[n], now);
    }
  }

  /** The visit of another entry. */
  lemma EntryElsewhere(cal: Calendar, w: World, w': World, n: Name)
    requires CalendarOk(cal) && EntryInv(cal, w, n) && |w.todo| != 0 && w.due.None?
    requires w'.fired == w.fired && w'.stage == w.stage && w'.now == w.now && w'.clock == w.clock
    requires w'.todo == w.todo[1..] && (n in w'.state <==> n in w.state)
    requires n in w.state ==> w'.state[n] == w.state[n]
    requires RecordOf(w'.records, n) == RecordOf(w.records, n)
    requires w'.due.Some? ==> w'.due.value.name != n
    requires w.stage.Down? ==> w'.due.None? && w'.state == map[]
    ensures EntryInv(cal, w', n)
  {
    assert (n in w'.records <==> n in w.records) && (n in w.records ==> w'.records[n] == w.records[n]);
    assert forall i | 0 <= i < |w'.todo| :: w'.todo[i] == w.todo[i + 1];
  }

  lemma CaughtUp(cal: Calendar, w: World, n: Name)
    requires CalendarOk(cal) && EntryInv(cal, w, n) && w.stage.CatchingUp? && w.due.None?
    requires |w.todo| != 0 && w.todo[0] == n && n in w.state
    ensures EntryInv(cal, VisitStep(cal, w), n)
  {
    var e := w.state[n].entry;
    var c := CatchUp(cal, e, RecordOf(w.records, n), w.now);
    CatchUpMeaning(cal, e, RecordOf(w.records, n), w.now);
    var w' := VisitStep(cal, w);
    assert n !in w.todo[1..];
    assert forall i | 0 <= i < |w'.todo| :: w'.todo[i] == w.todo[i + 1];
  }

  lemma Looped(cal: Calendar, w: World, n: Name)
    requires CalendarOk(cal) && EntryInv(cal, w, n) && w.stage.Looping? && w.due.None?
    requires |w.todo| != 0 && w.todo[0] == n && n in w.state
    ensures EntryInv(cal, VisitStep(cal, w), n)
  {
    var w' := VisitStep(cal, w);
    assert forall i | 0 <= i < |w'.todo| :: w'.todo[i] == w.todo[i + 1];
  }

  lemma EntryVisit(cal: Calendar, w: World, n: Name)
    requires CalendarOk(cal) && EntryInv(cal, w, n) && Enabled(w, Visit)
    ensures EntryInv(cal, VisitStep(cal, w), n)
  {
    if w.todo[0] == n && n in w.state {
      if w.stage.CatchingUp? { CaughtUp(cal, w, n); } else { Looped(cal, w, n); }
    } else {
      EntryElsewhere(cal, w, VisitStep(cal, w), n);
    }
  }

  lemma EntryBegin(cal: Calendar, w: World, n: Name)
    requires CalendarOk(cal) && EntryInv(cal, w, n) && Enabled(w, Begin)
    ensures EntryInv(cal, Next(cal, w, Begin), n)
  {
    var more := w.fired + [w.due.value];
    forall i | 0 <= i < |more| ensures i < |w.fired| ==> more[i] == w.fired[i] {}
  }

  lemma EntryStep(cal: Calendar, w: World, ev: Event, n: Name)
    requires CalendarOk(cal) && EntryInv(cal, w, n) && Steadily(cal, w, ev, n)
    ensures EntryInv(cal, Next(cal, w, ev), n)
  {
    if Enabled(w, ev) {
      match ev
      case Start(_, _, _, _) => EntryStart(cal, w, ev, n);
      case Reload(config, now) => EntryReload(cal, w, config, now, n);
      case Wake(_, _) =>
      case Visit => EntryVisit(cal, w, n);
      case Begin => EntryBegin(cal, w, n);
      case Crash =>
    }
  }

  lemma {:induction false} EntryHolds(cal: Calendar, clock: int, evs: seq<Event>, n: Name)
    requires CalendarOk(cal) && SteadyFor(cal, clock, evs, n)
    ensures EntryInv(cal, Exec(cal, clock, evs), n)
  {
    if evs != [] {
      var past := evs[..|evs| - 1];
      forall i | 0 <= i < |past| ensures Steadily(cal, Exec(cal, clock, past[..i]), past[i], n) {
        assert past[..i] == evs[..i] && past[i] == evs[i];
      }
      EntryHolds(cal, clock, past, n);
      EntryStep(cal, Exec(cal, clock, past), evs[|evs| - 1], n);
    }
  }

  /** No scheduled occurrence of an entry fires twice over any sequence of wakes,
      reloads, crashes and restarts: the fires of an entry name are strictly later one
      after the other, also when its expression is edited in between, as long as no
      start-up catches that entry up with an occurrence in the gap `Steadily` names.
      Other entries, and entries that are not caught up, may do as they like. */
  lemma NoOccurrenceFiresTwice(cal: Calendar, clock: int, evs: seq<Event>, n: Name)
    requires CalendarOk(cal) && SteadyFor(cal, clock, evs, n)
    ensures var fired := Exec(cal, clock, evs).fired;
      && (forall i, j | 0 <= i < j < |fired| && fired[i].name == fired[j].name == n :: fired[i].at < fired[j].at)
      && (forall i | 0 <= i < |fired| && fired[i].name == n :: Occurs(cal(fired[i].entry.expr), fired[i].at))
  {
    EntryHolds(cal, clock, evs, n);
  }

  /** What fired stays covered by the record, which is then never ahead of the clock. */
  lemma FiresStayRecorded(cal: Calendar, clock: int, evs: seq<Event>, n: Name)
    requires CalendarOk(cal) && SteadyFor(cal, clock, evs, n)
    ensures var w := Exec(cal, clock, evs);
      && (forall i | 0 <= i < |w.fired| && w.fired[i].name == n ::
            n in w.records && w.fired[i].at <= w.records[n].at)
      && (n in w.records ==> Moment(w.records[n].at) <= w.clock)
  {
    EntryHolds(cal, clock, evs, n);
  }

  // --- records only increase ---

  /** No start-up leaves a record for this entry that an occurrence it scheduled comes
      before. */
  ghost predicate RecordsSteadily(cal: Calendar, w: World, ev: Event, n: Name)
    requires CalendarOk(cal)
  {
    && Steadily(cal, w, ev, n)
    && (ev.Start? && Enabled(w, ev) && n in ev.config
          && CatchUp(cal, ev.config[n], RecordOf(w.records, n), ev.now).record.Some? ==>
          Clear(cal, ev.config[n], ev.scheduledAt, ev.now + 1))
  }

  ghost predicate RecordsSteadyFor(cal: Calendar, clock: int, evs: seq<Event>, n: Name)
    requires CalendarOk(cal)
  {
    forall i | 0 <= i < |evs| :: RecordsSteadily(cal, Exec(cal, clock, evs[..i]), evs[i], n)
  }

  lemma RecordsSteadyPrefix(cal: Calendar, clock: int, evs: seq<Event>, n: Name)
    requires CalendarOk(cal) && evs != [] && RecordsSteadyFor(cal, clock, evs, n)
    ensures RecordsSteadyFor(cal, clock, evs[..|evs| - 1], n)
    ensures RecordsSteadily(cal, Exec(cal, clock, evs[..|evs| - 1]), evs[|evs| - 1], n)
  {
    var past := evs[..|evs| - 1];
    forall i | 0 <= i < |past| ensures RecordsSteadily(cal, Exec(cal, clock, past[..i]), past[i], n) {
      assert past[..i] == evs[..i] && past[i] == evs[i];
    }
  }

  /** The pending fire is later than the record, also the one a catch-up will leave. */
  ghost predicate PendingLater(cal: Calendar, w: World, n: Name)
    requires CalendarOk(cal)
  {
    n in w.state ==>
      && (n in w.records ==> w.records[n].at < w.state[n].nextFire)
      && (w.stage.CatchingUp? && n in w.todo ==>
            var c := CatchUp(cal, w.state[n].entry, RecordOf(w.records, n), w.now);
            c.record.Some? ==> c.record.value.at < w.state[n].nextFire)
  }

  lemma LaterStart(cal: Calendar, w: World, ev: Event, n: Name)
    requires CalendarOk(cal) && EntryInv(cal, w, n) && ev.Start? && Enabled(w, ev) && RecordsSteadily(cal, w, ev, n)
    ensures PendingLater(cal, Next(cal, w, ev), n)
  {
    if n in ev.config {
      var e := ev.config[n];
      var s := cal(e.expr);
      var c := CatchUp(cal, e, RecordOf(w.records, n), ev.now);
      assert Next(cal, w, ev).state[n] == EntryState(e, NextFire(s, ev.scheduledAt));
      CatchUpMeaning(cal, e, RecordOf(w.records, n), ev.now);
      if c.fire { SteadyCatch(cal, e, RecordOf(w.records, n), ev.scheduledAt, ev.now); }
      else if c.record.Some? { var i :| s(i) == NextFire(s, ev.scheduledAt); }
    }
  }

  lemma LaterReload(cal: Calendar, w: World, config: map<Name, Entry>, now: int, n: Name)
    requires CalendarOk(cal) && EntryInv(cal, w, n) && PendingLater(cal, w, n) && Enabled(w, Reload(config, now))
    ensures PendingLater(cal, Next(cal, w, Reload(config, now)), n)
  {
    if n in config { assert Loaded(cal, w.state, config, now)[n] == LoadedOne(cal, w.state, n, config[n], now); }
  }

  lemma LaterVisit(cal: Calendar, w: World, n: Name)
    requires CalendarOk(cal) && EntryInv(cal, w, n) && PendingLater(cal, w, n) && Enabled(w, Visit)
    ensures PendingLater(cal, VisitStep(cal, w), n)
    ensures n in w.records ==> n in VisitStep(cal, w).records && w.records[n].at <= VisitStep(cal, w).records[n].at
  {
    var w' := VisitStep(cal, w);
    assert forall m | m in w'.todo :: m in w.todo;
    if w.todo[0] == n {
      assert n !in w'.todo;
      if n in w.state && w.stage.CatchingUp? {
        CatchUpMeaning(cal, w.state[n].entry, RecordOf(w.records, n), w.now);
      }
    }
  }

  lemma LaterStep(cal: Calendar, w: World, ev: Event, n: Name)
    requires CalendarOk(cal) && EntryInv(cal, w, n) && PendingLater(cal, w, n) && RecordsSteadily(cal, w, ev, n)
    ensures PendingLater(cal, Next(cal, w, ev), n)
    ensures n in w.records ==>
      n in Next(cal, w, ev).records && w.records[n].at <= Next(cal, w, ev).records[n].at
  {
    if Enabled(w, ev) {
      match ev
      case Start(_, _, _, _) => LaterStart(cal, w, ev, n);
      case Reload(config, now) => LaterReload(cal, w, config, now, n);
      case Visit => LaterVisit(cal, w, n);
      case Wake(_, _) =>
      case Begin =>
      case Crash =>
    }
  }

  lemma {:induction false} LaterHolds(cal: Calendar, clock: int, evs: seq<Event>, n: Name)
    requires CalendarOk(cal) && RecordsSteadyFor(cal, clock, evs, n)
    ensures EntryInv(cal, Exec(cal, clock, evs), n) && PendingLater(cal, Exec(cal, clock, evs), n)
  {
    EntryHolds(cal, clock, evs, n);
    if evs != [] {
      RecordsSteadyPrefix(cal, clock, evs, n);
      LaterHolds(cal, clock, evs[..|evs| - 1], n);
      LaterStep(cal, Exec(cal, clock, evs[..|evs| - 1]), evs[|evs| - 1], n);
    }
  }

  /** Then the recorded times of the entry only increase, over crashes and restarts too. */
  lemma {:induction false} RecordsOnlyIncrease(cal: Calendar, clock: int, evs: seq<Event>, k: nat, n: Name)
    requires CalendarOk(cal) && RecordsSteadyFor(cal, clock, evs, n) && k <= |evs|
    ensures var older, newer := Exec(cal, clock, evs[..k]).records, Exec(cal, clock, evs).records;
      n in older ==> n in newer && older[n].at <= newer[n].at
    decreases |evs|
  {
    if k == |evs| {
      assert evs[..k] == evs;
    } else {
      var past := evs[..|evs| - 1];
      assert past[..k] == evs[..k];
      RecordsSteadyPrefix(cal, clock, evs, n);
      RecordsOnlyIncrease(cal, clock, past, k, n);
      LaterHolds(cal, clock, past, n);
      LaterStep(cal, Exec(cal, clock, past), evs[|evs| - 1], n);
    }
  }

  // --- a start-up that breaks it ---

  /** The start-up with that one entry, up to its first wake. */
  ghost function FirstFire(cal: Calendar, w: World, n: Name, e: Entry, scheduledAt: int, now: int): World
    requires CalendarOk(cal)
  {
    Next(cal, Next(cal, Next(cal, w, Start(map[n := e], scheduledAt, now, [n])), Visit), Begin)
  }

  /** The first wake after it. */
  ghost function SecondFire(cal: Calendar, w: World, n: Name, e: Entry, scheduledAt: int, now: int, later: int): World
    requires CalendarOk(cal)
  {
    Next(cal, Next(cal, Next(cal, FirstFire(cal, w, n, e, scheduledAt, now), Wake(later, [n])), Visit), Begin)
  }

  lemma StartsOne(cal: Calendar, w: World, n: Name, e: Entry, scheduledAt: int, now: int)
    requires CalendarOk(cal) && w.stage.Down? && w.due.None? && w.clock <= scheduledAt <= now
    ensures Next(cal, w, Start(map[n := e], scheduledAt, now, [n]))
      == w.(stage := CatchingUp, state := map[n := EntryState(e, NextFire(cal(e.expr), scheduledAt))],
            todo := [n], now := now, clock := now)
  {
    assert Lists([n], {n}) && map[n := e].Keys == {n};
    assert Loaded(cal, map[], map[n := e], scheduledAt)
      == map[n := EntryState(e, NextFire(cal(e.expr), scheduledAt))];
  }

  lemma VisitsOne(cal: Calendar, w: World, n: Name)
    requires CalendarOk(cal) && !w.stage.Down? && w.due.None? && w.todo == [n] && n in w.state
    ensures Next(cal, w, Visit)
      == if w.stage.CatchingUp? then CatchUpStep(cal, w.(todo := []), n) else LoopStep(cal, w.(todo := []), n)
  {
    assert w.todo[1..] == [];
  }

  lemma StartCatchesUp(cal: Calendar, w: World, n: Name, e: Entry, scheduledAt: int, now: int)
    requires CalendarOk(cal) && w.stage.Down? && w.due.None? && w.clock <= scheduledAt <= now
    requires CatchUp(cal, e, RecordOf(w.records, n), now).fire
    ensures var w' := FirstFire(cal, w, n, e, scheduledAt, now);
      && Resting(w') && w'.clock == now
      && w'.state == map[n := EntryState(e, NextFire(cal(e.expr), scheduledAt))]
      && w'.fired == w.fired + [Fire(n, e, PrevFire(cal(e.expr), now + SECOND))]
  {
    StartsOne(cal, w, n, e, scheduledAt, now);
    var w1 := Next(cal, w, Start(map[n := e], scheduledAt, now, [n]));
    VisitsOne(cal, w1, n);
    CatchUpMeaning(cal, e, RecordOf(w.records, n), now);
  }

  lemma WakeFires(cal: Calendar, w: World, n: Name, s: EntryState, later: int)
    requires CalendarOk(cal) && Resting(w) && w.clock <= later && w.state == map[n := s] && Moment(s.nextFire) <= later
    ensures Next(cal, Next(cal, Next(cal, w, Wake(later, [n])), Visit), Begin).fired
      == w.fired + [Fire(n, s.entry, s.nextFire)]
  {
    assert Lists([n], {n}) && w.state.Keys == {n};
    var w1 := Next(cal, w, Wake(later, [n]));
    VisitsOne(cal, w1, n);
  }

  lemma CatchUpThenWake(cal: Calendar, w: World, n: Name, e: Entry, scheduledAt: int, now: int, later: int)
    requires CalendarOk(cal) && w.stage.Down? && w.due.None? && w.clock <= scheduledAt <= now <= later
    requires CatchUp(cal, e, RecordOf(w.records, n), now).fire
    requires Moment(NextFire(cal(e.expr), scheduledAt)) <= later
    ensures SecondFire(cal, w, n, e, scheduledAt, now, later).fired
      == w.fired + [Fire(n, e, PrevFire(cal(e.expr), now + SECOND)), Fire(n, e, NextFire(cal(e.expr), scheduledAt))]
  {
    StartCatchesUp(cal, w, n, e, scheduledAt, now);
    var w1 := FirstFire(cal, w, n, e, scheduledAt, now);
    WakeFires(cal, w1, n, EntryState(e, NextFire(cal(e.expr), scheduledAt)), later);
  }

  /** The start-up reads the clock to schedule and again to catch up, and catches up what
      is less than a second away: the next fire comes after the one caught up, as it
      should, if and only if no occurrence lies between the first reading and a second
      past the other. */
  lemma TwoReadingsMayRefire(cal: Calendar, w: World, n: Name, e: Entry, scheduledAt: int, now: int, later: int)
    requires CalendarOk(cal) && w.stage.Down? && w.due.None? && w.clock <= scheduledAt <= now <= later
    requires CatchUp(cal, e, RecordOf(w.records, n), now).fire
    requires Moment(NextFire(cal(e.expr), scheduledAt)) <= later
    ensures var fired := SecondFire(cal, w, n, e, scheduledAt, now, later).fired;
      && |fired| == |w.fired| + 2
      && fired[|fired| - 2].name == fired[|fired| - 1].name == n
      && (fired[|fired| - 2].at < fired[|fired| - 1].at <==> Clear(cal, e, scheduledAt, now + SECOND))
  {
    CatchUpThenWake(cal, w, n, e, scheduledAt, now, later);
    NextAfterPrev(cal, e, scheduledAt, now);
  }

  lemma NextAfterPrev(cal: Calendar, e: Entry, scheduledAt: int, now: int)
    requires CalendarOk(cal) && scheduledAt <= now
    ensures PrevFire(cal(e.expr), now + SECOND) < NextFire(cal(e.expr), scheduledAt)
      <==> Clear(cal, e, scheduledAt, now + SECOND)
  {
    var s := cal(e.expr);
    var next, prev := NextFire(s, scheduledAt), PrevFire(s, now + SECOND);
    var i :| s(i) == next;
    var j :| s(j) == prev;
    if prev < next {
      forall k ensures !(scheduledAt < Moment(s(k)) < now + SECOND) {}
    } else {
      assert scheduledAt < Moment(s(i)) < now + SECOND;
    }
  }

  /** Every full minute. */
  function Minutely(e: Expr): Schedule { i => 60 * i }

  const JOB := Entry(0, Some(3600))
  const CONFIG: map<Name, Entry> := map[1 := JOB]

  /** A first start leaves a record, the daemon is down until the second minute. */
  const BEFORE := [Start(CONFIG, 0, 0, [1]), Visit, Crash]

  lemma DownWithARecord()
    requires CalendarOk(Minutely)
    ensures var w := Exec(Minutely, 0, BEFORE);
      && w.stage.Down? && w.due.None? && w.clock == 0 && w.fired == [] && w.records == map[1 := Record(0, 0)]
  {
    assert BEFORE[..2] == [Start(CONFIG, 0, 0, [1]), Visit] && BEFORE[..2][..1] == [Start(CONFIG, 0, 0, [1])];
    assert [Start(CONFIG, 0, 0, [1])][..0] == [];
    assert Exec(Minutely, 0, []) == Init(0);
    StartsOne(Minutely, Init(0), 1, JOB, 0, 0);
    VisitsOne(Minutely, Exec(Minutely, 0, BEFORE[..2][..1]), 1);
  }

  lemma SecondMinute(s: Schedule, now: int)
    requires Increasing(s) && (forall i :: s(i) == 60 * i) && Moment(119) <= now <= Moment(120)
    ensures now < Moment(120) ==> NextFire(s, now) == 120
    ensures now > Moment(119) ==> PrevFire(s, now + SECOND) == 120
  {
    var i :| s(i) == NextFire(s, now);
    var j :| s(j) == PrevFire(s, now + SECOND);
    assert s(2) == 120;
  }

  lemma MinutelyOk()
    ensures CalendarOk(Minutely) && forall e, i :: Minutely(e)(i) == 60 * i
  {
  }

  lemma JobIsCaughtUp(scheduledAt: int, now: int)
    requires CalendarOk(Minutely) && Moment(119) <= scheduledAt < Moment(120) && Moment(119) < now <= Moment(120)
    ensures CatchUp(Minutely, JOB, Some(Record(0, 0)), now) == Catch(Some(Record(120, 0)), true)
    ensures NextFire(Minutely(0), scheduledAt) == 120 && PrevFire(Minutely(0), now + SECOND) == 120
  {
    MinutelyOk();
    SecondMinute(Minutely(0), scheduledAt);
    SecondMinute(Minutely(0), now);
  }

  lemma MinuteTwice(scheduledAt: int, now: int)
    requires CalendarOk(Minutely) && Moment(119) <= scheduledAt < Moment(120)
    requires scheduledAt <= now && Moment(119) < now <= Moment(120)
    ensures SecondFire(Minutely, Exec(Minutely, 0, BEFORE), 1, JOB, scheduledAt, now, Moment(120)).fired
      == [Fire(1, JOB, 120), Fire(1, JOB, 120)]
  {
    DownWithARecord();
    JobIsCaughtUp(scheduledAt, now);
    var w := Exec(Minutely, 0, BEFORE);
    CatchUpThenWake(Minutely, w, 1, JOB, scheduledAt, now, Moment(120));
    assert w.fired + [Fire(1, JOB, 120), Fire(1, JOB, 120)] == [Fire(1, JOB, 120), Fire(1, JOB, 120)];
  }

  /** The clock reaches the minute between the two readings: that minute fires twice. And
      it does when both readings are half a second and less before it, with no occurrence
      between them. */
  lemma OneMinuteTwice()
    ensures CalendarOk(Minutely)
    ensures var twice := [Fire(1, JOB, 120), Fire(1, JOB, 120)];
      && SecondFire(Minutely, Exec(Minutely, 0, BEFORE), 1, JOB, 119000000, 120000000, 120000000).fired == twice
      && SecondFire(Minutely, Exec(Minutely, 0, BEFORE), 1, JOB, 119400000, 119500000, 120000000).fired == twice
  {
    MinutelyOk();
    MinuteTwice(119000000, 120000000);
    MinuteTwice(119400000, 119500000);
  }
}
