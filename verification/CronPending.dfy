/** What is pending for a cron entry: always the first occurrence after the load or wake
    that set it, so that a wake fires each entry once at most. */
module CronPending {
  import opened Options
  import opened CronTimes
  import opened CronRuns
  import opened CronDaemons

  /** The least occurrence that begins after a reading of the clock. */
  ghost predicate FirstAfter(cal: Calendar, e: Expr, reading: int, t: int) {
    && reading < Moment(t) && Occurs(cal(e), t)
    && forall i :: reading < Moment(cal(e)(i)) ==> t <= cal(e)(i)
  }

  /** The event sets what is pending for this entry, from this reading of the clock: a
      start, a reload that brings the entry or another expression for it, or a wake that
      finds it due. */
  ghost predicate Sets(w: World, ev: Event, n: Name, reading: int) {
    && Enabled(w, ev)
    && match ev
       case Start(config, scheduledAt, _, _) => n in config && reading == scheduledAt
       case Reload(config, now) =>
         n in config && (n in w.state ==> w.state[n].entry.expr != config[n].expr) && reading == now
       case Visit =>
         && w.stage.Looping? && w.todo[0] == n && n in w.state
         && Moment(w.state[n].nextFire) <= w.now && reading == w.now
       case _ => false
  }

  ghost predicate SetsAny(w: World, ev: Event, n: Name) { exists reading :: Sets(w, ev, n, reading) }

  /** The event at `a` set what is pending, and nothing did since. */
  ghost predicate LastSet(cal: Calendar, clock: int, evs: seq<Event>, n: Name, a: nat, reading: int)
    requires CalendarOk(cal)
  {
    && a < |evs| && Sets(Exec(cal, clock, evs[..a]), evs[a], n, reading)
    && forall x | a < x < |evs| :: !SetsAny(Exec(cal, clock, evs[..x]), evs[x], n)
  }

  // --- one event ---

  lemma LoadSets(cal: Calendar, state: map<Name, EntryState>, config: map<Name, Entry>, now: int, n: Name)
    requires CalendarOk(cal) && n in config
    ensures var s := Loaded(cal, state, config, now)[n];
      if n in state && state[n].entry.expr == config[n].expr then
        s.entry.expr == state[n].entry.expr && s.nextFire == state[n].nextFire
      else s.entry.expr == config[n].expr && FirstAfter(cal, s.entry.expr, now, s.nextFire)
  {
    LoadedAt(cal, state, config, now, n);
  }

  /** After a start or a reload the daemon knows exactly the configured entries, each as it is
      configured now. */
  lemma LoadTakesTheConfig(cal: Calendar, w: World, ev: Event, n: Name)
    requires CalendarOk(cal) && Enabled(w, ev) && (ev.Start? || ev.Reload?)
    ensures var state := Next(cal, w, ev).state;
      (n in state <==> n in ev.config) && (n in state ==> state[n].entry == ev.config[n])
  {
    if ev.Start? { LoadedAt(cal, map[], ev.config, ev.scheduledAt, n); }
    else { LoadedAt(cal, w.state, ev.config, ev.now, n); }
  }

  /** An event leaves what is pending for an entry that stays, unless it sets it. */
  lemma StepSets(cal: Calendar, w: World, ev: Event, n: Name, reading: int)
    requires CalendarOk(cal) && n in Next(cal, w, ev).state && (w.stage.Down? ==> w.state == map[])
    ensures var s := Next(cal, w, ev).state[n];
      && (Sets(w, ev, n, reading) ==> FirstAfter(cal, s.entry.expr, reading, s.nextFire))
      && (!SetsAny(w, ev, n) ==>
            n in w.state && s.entry.expr == w.state[n].entry.expr && s.nextFire == w.state[n].nextFire)
  {
    if Enabled(w, ev) {
      match ev
      case Start(config, scheduledAt, now, order) =>
        LoadSets(cal, map[], config, scheduledAt, n);
        assert Sets(w, ev, n, scheduledAt);
      case Reload(config, now) =>
        LoadSets(cal, w.state, config, now, n);
        if n !in w.state || w.state[n].entry.expr != config[n].expr { assert Sets(w, ev, n, now); }
      case Visit =>
        if w.stage.Looping? && w.todo[0] == n && n in w.state && Moment(w.state[n].nextFire) <= w.now {
          assert Sets(w, ev, n, w.now);
        }
      case Wake(_, _) =>
      case Begin =>
      case Crash =>
    }
  }

  // --- every run ---

  /** A process that is down knows no entry. A wake has still to visit whatever is due. */
  ghost predicate Awake(w: World) {
    && (w.stage.Down? ==> w.state == map[] && w.todo == [])
    && (w.stage.Looping? ==>
          w.now <= w.clock && forall n | n in w.state && n !in w.todo :: w.now < Moment(w.state[n].nextFire))
    && (w.stage.CatchingUp? ==> |w.todo| != 0 ==> w.now == w.clock)
    && (forall i, j | 0 <= i < j < |w.todo| :: w.todo[i] != w.todo[j])
  }

  lemma AwakeStep(cal: Calendar, w: World, ev: Event)
    requires CalendarOk(cal) && Awake(w)
    ensures Awake(Next(cal, w, ev))
  {
    if Enabled(w, ev) {
      match ev
      case Visit =>
        var w' := VisitStep(cal, w);
        assert forall i | 0 <= i < |w'.todo| :: w'.todo[i] == w.todo[i + 1];
      case Start(_, _, _, _) =>
      case Reload(_, _) =>
      case Wake(_, _) =>
      case Begin =>
      case Crash =>
    }
  }

  lemma {:induction false} AwakeHolds(cal: Calendar, clock: int, evs: seq<Event>)
    requires CalendarOk(cal)
    ensures Awake(Exec(cal, clock, evs))
  {
    if evs != [] {
      AwakeHolds(cal, clock, evs[..|evs| - 1]);
      AwakeStep(cal, Exec(cal, clock, evs[..|evs| - 1]), evs[|evs| - 1]);
    }
  }

  lemma LastSetNext(cal: Calendar, clock: int, evs: seq<Event>, ev: Event, n: Name, a: nat, reading: int)
    requires CalendarOk(cal)
    ensures LastSet(cal, clock, evs + [ev], n, a, reading) <==>
      if a == |evs| then Sets(Exec(cal, clock, evs), ev, n, reading)
      else LastSet(cal, clock, evs, n, a, reading) && !SetsAny(Exec(cal, clock, evs), ev, n)
  {
    var more := evs + [ev];
    assert more[..|evs|] == evs && more[|evs|] == ev;
    forall x | 0 <= x < |evs| ensures more[..x] == evs[..x] && more[x] == evs[x] {}
  }

  /** At every point of every run, what is pending for an entry is the first occurrence
      of its expression after the clock as the load or the wake read it that set it last. */
  lemma {:induction false} PendingIsTheFirst(cal: Calendar, clock: int, evs: seq<Event>, n: Name)
    returns (a: nat, reading: int)
    requires CalendarOk(cal) && n in Exec(cal, clock, evs).state
    ensures LastSet(cal, clock, evs, n, a, reading)
    ensures var s := Exec(cal, clock, evs).state[n]; FirstAfter(cal, s.entry.expr, reading, s.nextFire)
  {
    var past, ev := evs[..|evs| - 1], evs[|evs| - 1];
    var w := Exec(cal, clock, past);
    assert evs == past + [ev];
    AwakeHolds(cal, clock, past);
    if SetsAny(w, ev, n) {
      a := |past|;
      reading :| Sets(w, ev, n, reading);
    } else {
      StepSets(cal, w, ev, n, 0);
      a, reading := PendingIsTheFirst(cal, clock, past, n);
    }
    StepSets(cal, w, ev, n, reading);
    LastSetNext(cal, clock, past, ev, n, a, reading);
  }

  /** Once a wake has visited an entry, and for as long as the process lives, what is
      pending for it is later than the last wake; and the first occurrence after that
      wake, unless a reload set it since. */
  lemma VisitedIsAhead(cal: Calendar, clock: int, evs: seq<Event>, n: Name)
    requires CalendarOk(cal)
    requires var w := Exec(cal, clock, evs); w.stage.Looping? && n in w.state && n !in w.todo
    ensures var w := Exec(cal, clock, evs);
      && w.now < Moment(w.state[n].nextFire)
      && ((exists a: nat, reading :: LastSet(cal, clock, evs, n, a, reading) && reading <= w.now) ==>
            FirstAfter(cal, w.state[n].entry.expr, w.now, w.state[n].nextFire))
  {
    AwakeHolds(cal, clock, evs);
    var a, reading := PendingIsTheFirst(cal, clock, evs, n);
    if b: nat, other :| LastSet(cal, clock, evs, n, b, other) && other <= Exec(cal, clock, evs).now {
      OneLastSet(cal, clock, evs, n, a, reading, b, other);
    }
  }

  lemma OneLastSet(cal: Calendar, clock: int, evs: seq<Event>, n: Name, a: nat, reading: int, b: nat, other: int)
    requires CalendarOk(cal) && LastSet(cal, clock, evs, n, a, reading) && LastSet(cal, clock, evs, n, b, other)
    ensures a == b && reading == other
  {
    if a < b { assert SetsAny(Exec(cal, clock, evs[..b]), evs[b], n); }
    if b < a { assert SetsAny(Exec(cal, clock, evs[..a]), evs[a], n); }
  }

  /** An event makes a fire due in the loop if and only if it is the visit of an entry
      whose pending time has come; and that time is the first occurrence after the load
      or the wake that set it. */
  lemma FiresWhenTheTimeHasCome(cal: Calendar, clock: int, evs: seq<Event>, ev: Event, n: Name)
    returns (a: nat, reading: int)
    requires CalendarOk(cal) && Enabled(Exec(cal, clock, evs), ev)
    requires var w := Exec(cal, clock, evs); w.stage.Looping? && w.due.None?
    ensures var w := Exec(cal, clock, evs);
      var due := Next(cal, w, ev).due;
      && (due.Some? && due.value.name == n <==>
            ev.Visit? && w.todo[0] == n && n in w.state && Moment(w.state[n].nextFire) <= w.now)
      && (due.Some? && due.value.name == n ==>
            && due.value == Fire(n, w.state[n].entry, w.state[n].nextFire)
            && LastSet(cal, clock, evs, n, a, reading)
            && FirstAfter(cal, w.state[n].entry.expr, reading, due.value.at))
  {
    var w := Exec(cal, clock, evs);
    a, reading := 0, 0;
    if n in w.state { a, reading := PendingIsTheFirst(cal, clock, evs, n); }
  }

  // --- one whole wake ---

  predicate IsDue(w: World, n: Name) { n in w.state && n in w.todo && Moment(w.state[n].nextFire) <= w.now }

  predicate FiredAt(w: World, w': World, i: int, n: Name) { |w.fired| <= i < |w'.fired| && w'.fired[i].name == n }

  /** Each entry that is due is recorded as just that, and waits for its first occurrence
      after the wake; the others are as they were. */
  ghost predicate WokenState(cal: Calendar, w: World, w': World) {
    && w'.todo == [] && w'.due.None? && w'.stage == w.stage && w'.now == w.now && w'.clock == w.clock
    && w'.state.Keys == w.state.Keys
    && forall n | n in w.state ::
         && w'.state[n].entry == w.state[n].entry
         && (if IsDue(w, n) then FirstAfter(cal, w.state[n].entry.expr, w.now, w'.state[n].nextFire)
             else w'.state[n] == w.state[n])
         && RecordOf(w'.records, n) == (if IsDue(w, n) then Some(Record(w.state[n].nextFire, w.state[n].entry.expr))
                                        else RecordOf(w.records, n))
  }

  /** Exactly the entries that are due fired, each once, with what was pending. */
  ghost predicate WokenFires(w: World, w': World) {
    && |w.fired| <= |w'.fired| && w'.fired[..|w.fired|] == w.fired
    && (forall i | |w.fired| <= i < |w'.fired| :: FiresPending(w, w'.fired[i]))
    && (forall n | IsDue(w, n) :: exists i :: FiredAt(w, w', i, n))
    && (forall i, j | |w.fired| <= i < j < |w'.fired| :: w'.fired[i].name != w'.fired[j].name)
  }

  predicate FiresPending(w: World, fire: Fire) {
    IsDue(w, fire.name) && fire == Fire(fire.name, w.state[fire.name].entry, w.state[fire.name].nextFire)
  }

  predicate Visiting(w: World) {
    && w.stage.Looping? && w.due.None? && (forall n | n in w.todo :: n in w.state)
    && forall i, j | 0 <= i < j < |w.todo| :: w.todo[i] != w.todo[j]
  }

  /** The first visit of a wake. */
  lemma FirstVisit(cal: Calendar, w: World)
    requires CalendarOk(cal) && Visiting(w) && |w.todo| != 0
    ensures var n, w1 := w.todo[0], Begun(VisitStep(cal, w));
      && Visiting(w1) && w1.todo == w.todo[1..] && w1.now == w.now && w1.clock == w.clock
      && w1.state.Keys == w.state.Keys
      && (forall m | m in w.state && m != n ::
            w1.state[m] == w.state[m] && RecordOf(w1.records, m) == RecordOf(w.records, m))
      && (forall m :: IsDue(w1, m) <==> IsDue(w, m) && m != n)
      && (if IsDue(w, n) then
            && w1.fired == w.fired + [Fire(n, w.state[n].entry, w.state[n].nextFire)]
            && w1.state[n].entry == w.state[n].entry
            && FirstAfter(cal, w.state[n].entry.expr, w.now, w1.state[n].nextFire)
            && RecordOf(w1.records, n) == Some(Record(w.state[n].nextFire, w.state[n].entry.expr))
          else w1.state[n] == w.state[n] && RecordOf(w1.records, n) == RecordOf(w.records, n) && w1.fired == w.fired)
  {
    var w1 := Begun(VisitStep(cal, w));
    assert forall i | 0 <= i < |w.todo[1..]| :: w.todo[1..][i] == w.todo[i + 1];
  }

  lemma FiresBefore(w: World, w1: World, w': World, n: Name)
    requires WokenFires(w1, w') && n in w.state && w1.state.Keys == w.state.Keys
    requires forall m | m in w.state && m != n :: w1.state[m] == w.state[m]
    requires forall m :: IsDue(w1, m) <==> IsDue(w, m) && m != n
    requires if IsDue(w, n) then w1.fired == w.fired + [Fire(n, w.state[n].entry, w.state[n].nextFire)]
             else w1.fired == w.fired
    ensures WokenFires(w, w')
  {
    if IsDue(w, n) {
      assert w'.fired[|w.fired|] == w'.fired[..|w1.fired|][|w.fired|];
      assert FiredAt(w, w', |w.fired|, n);
      assert w'.fired[..|w.fired|] == w'.fired[..|w1.fired|][..|w.fired|];
    }
    forall i | |w.fired| <= i < |w'.fired| ensures FiresPending(w, w'.fired[i]) {
      if |w1.fired| <= i { assert FiresPending(w1, w'.fired[i]); }
    }
    forall m | IsDue(w, m) ensures exists i :: FiredAt(w, w', i, m) {
      if m != n {
        var i :| FiredAt(w1, w', i, m);
        assert FiredAt(w, w', i, m);
      }
    }
    forall i, j | |w.fired| <= i < j < |w'.fired| ensures w'.fired[i].name != w'.fired[j].name {
      if i < |w1.fired| { assert FiresPending(w1, w'.fired[j]); }
    }
  }

  lemma {:induction false} VisitAllWakes(cal: Calendar, w: World)
    requires CalendarOk(cal) && Visiting(w)
    ensures WokenState(cal, w, VisitAll(cal, w)) && WokenFires(w, VisitAll(cal, w))
    decreases |w.todo|
  {
    if |w.todo| != 0 {
      FirstVisit(cal, w);
      var w1 := Begun(VisitStep(cal, w));
      VisitAllWakes(cal, w1);
      FiresBefore(w, w1, VisitAll(cal, w), w.todo[0]);
    }
  }

  /** A wake, in every run: exactly the entries whose time has come fire, each once and with
      its pending occurrence, the first one after the wake or load before; and all entries
      then wait for an occurrence after this wake, those that fired for the first one. */
  lemma WakeFiresTheDueOnce(cal: Calendar, clock: int, evs: seq<Event>, now: int, order: seq<Name>)
    requires CalendarOk(cal) && Enabled(Exec(cal, clock, evs), Wake(now, order))
    ensures var w := Exec(cal, clock, evs);
      var w1 := Next(cal, w, Wake(now, order));
      var w' := VisitAll(cal, w1);
      && (forall n :: IsDue(w1, n) <==> n in w.state && Moment(w.state[n].nextFire) <= now)
      && WokenState(cal, w1, w') && WokenFires(w1, w') && w1.fired == w.fired
      && (forall n | n in w'.state :: now < Moment(w'.state[n].nextFire))
  {
    VisitAllWakes(cal, Next(cal, Exec(cal, clock, evs), Wake(now, order)));
  }
}
