/** The cron daemon in the form its methods have, proved against `CronRuns`. */
module CronDaemons {
  import opened Options
  import opened CronTimes
  import opened CronRuns

  function Begun(w: World): World {
    if w.due.Some? then w.(fired := w.fired + [w.due.value], due := None) else w
  }

  /** Every entry of a start-up or a wake visited, each due fire begun. */
  function VisitAll(cal: Calendar, w: World): World
    requires CalendarOk(cal)
    decreases |w.todo|
  {
    if |w.todo| == 0 then w else VisitAll(cal, Begun(VisitStep(cal, w)))
  }

  ghost function Run(cal: Calendar, w: World, evs: seq<Event>): World
    requires CalendarOk(cal)
    decreases |evs|
  {
    if |evs| == 0 then w else Run(cal, Next(cal, w, evs[0]), evs[1..])
  }

  /** What the methods below compute in one go is a run of the step machine. */
  lemma {:induction false} VisitAllIsARun(cal: Calendar, w: World) returns (evs: seq<Event>)
    requires CalendarOk(cal) && !w.stage.Down? && w.due.None?
    ensures Run(cal, w, evs) == VisitAll(cal, w) && forall i | 0 <= i < |evs| :: evs[i].Visit? || evs[i].Begin?
    decreases |w.todo|
  {
    if |w.todo| == 0 { return []; }
    var w1 := VisitStep(cal, w);
    assert Next(cal, w, Visit) == w1;
    var rest := VisitAllIsARun(cal, Begun(w1));
    if w1.due.Some? {
      assert Next(cal, w1, Begin) == Begun(w1);
      evs := [Visit, Begin] + rest;
      assert evs[1..] == [Begin] + rest && evs[1..][1..] == rest;
    } else {
      evs := [Visit] + rest;
      assert evs[1..] == rest;
    }
  }

  lemma MapsEqual<K, V>(a: map<K, V>, b: map<K, V>)
    requires a.Keys == b.Keys && forall k | k in a :: a[k] == b[k]
    ensures a == b
  {
  }

  lemma LoadedAt(cal: Calendar, state: map<Name, EntryState>, config: map<Name, Entry>, now: int, n: Name)
    requires CalendarOk(cal)
    ensures n in Loaded(cal, state, config, now) <==> n in config
    ensures n in config ==> Loaded(cal, state, config, now)[n] == LoadedOne(cal, state, n, config[n], now)
  {
  }

  lemma LoadedIs(cal: Calendar, state: map<Name, EntryState>, config: map<Name, Entry>, now: int,
                 loaded: map<Name, EntryState>)
    requires CalendarOk(cal) && loaded.Keys == config.Keys
    requires forall n | n in loaded :: loaded[n] == LoadedOne(cal, state, n, config[n], now)
    ensures loaded == Loaded(cal, state, config, now)
  {
    var goal := Loaded(cal, state, config, now);
    forall n ensures n in loaded <==> n in goal { LoadedAt(cal, state, config, now, n); }
    forall n | n in loaded ensures loaded[n] == goal[n] { LoadedAt(cal, state, config, now, n); }
    MapsEqual(loaded, goal);
  }

  class CronDaemon {
    const cal: Calendar
    var state: map<Name, EntryState>
    var records: map<Name, Record>
    var fired: seq<Fire>

    /** The daemon's tables as a world of the step machine. */
    function World(stage: Stage, todo: seq<Name>, now: int): CronRuns.World
      reads this
    {
      CronRuns.World(stage, state, todo, now, None, records, now, fired)
    }

    constructor (cal: Calendar, records: map<Name, Record>)
      ensures this.cal == cal && this.records == records && state == map[] && fired == []
    {
      this.cal, this.records, state, fired := cal, records, map[], [];
    }

    /** One entry's state after a load: an unchanged expression keeps its pending fire. */
    method LoadEntry(n: Name, e: Entry, now: int) returns (s: EntryState)
      requires CalendarOk(cal)
      ensures s == LoadedOne(cal, state, n, e, now)
    {
      if n in state && state[n].entry.expr == e.expr { return EntryState(e, state[n].nextFire); }
      return EntryState(e, NextFire(cal(e.expr), now));
    }

    method Reload(config: map<Name, Entry>, now: int)
      requires CalendarOk(cal)
      modifies `state
      ensures state == Loaded(cal, old(state), config, now)
    {
      var newState: map<Name, EntryState> := map[];
      var left := config.Keys;
      while left != {}
        invariant state == old(state)
        invariant left <= config.Keys && newState.Keys == config.Keys - left
        invariant forall n | n in newState :: newState[n] == LoadedOne(cal, state, n, config[n], now)
        decreases |left|
      {
        var n :| n in left;
        left := left - {n};
        var s := LoadEntry(n, config[n], now);
        newState := newState[n := s];
      }
      LoadedIs(cal, state, config, now, newState);
      state := newState;
    }

    method RecordSchedule(n: Name, e: Entry, at: int)
      modifies `records
      ensures records == old(records)[n := Record(at, e.expr)]
    {
      records := records[n := Record(at, e.expr)];
    }

    method StartFire(n: Name, e: Entry, at: int)
      modifies `fired
      ensures fired == old(fired) + [Fire(n, e, at)]
    {
      fired := fired + [Fire(n, e, at)];
    }

    /** What the outage means for one entry. */
    method Missed(e: Entry, last: Option<Record>, now: int) returns (c: Catch)
      requires CalendarOk(cal)
      ensures c == CatchUp(cal, e, last, now)
    {
      if last.None? || last.value.expr != e.expr { return Catch(Some(Record(Secs(now), e.expr)), false); }
      var count, latest, _, _ := MissedFires(cal(e.expr), last.value.at, now);
      if latest.None? { return Catch(None, false); }
      if e.catchUp.Some? && now - Moment(latest.value) <= Moment(e.catchUp.value) {
        return Catch(Some(Record(latest.value, e.expr)), true);
      }
      return Catch(Some(Record(Secs(now), e.expr)), false);
    }

    method CatchUpOne(n: Name, now: int)
      requires CalendarOk(cal) && n in state
      modifies `records, `fired
      ensures World(CatchingUp, [], now) == Begun(CatchUpStep(cal, old(World(CatchingUp, [], now)), n))
    {
      var e := state[n].entry;
      var c := Missed(e, RecordOf(records, n), now);
      if c.record.None? { return; }
      RecordSchedule(n, e, c.record.value.at);
      assert c.record.value.expr == e.expr;
      if c.fire { StartFire(n, e, c.record.value.at); }
    }

    method CatchUpMissed(order: seq<Name>, now: int)
      requires CalendarOk(cal) && forall i | 0 <= i < |order| :: order[i] in state
      modifies `records, `fired
      ensures World(CatchingUp, [], now) == VisitAll(cal, old(World(CatchingUp, order, now)))
    {
      ghost var begun := World(CatchingUp, order, now);
      var i := 0;
      while i < |order|
        invariant 0 <= i <= |order|
        invariant VisitAll(cal, World(CatchingUp, order[i..], now)) == VisitAll(cal, begun)
      {
        assert order[i..][1..] == order[i + 1..];
        CatchUpOne(order[i], now);
        i := i + 1;
      }
    }

    method FireIfDue(n: Name, now: int)
      requires CalendarOk(cal) && n in state
      modifies `state, `records, `fired
      ensures World(Looping, [], now) == Begun(LoopStep(cal, old(World(Looping, [], now)), n))
      ensures state.Keys == old(state.Keys)
    {
      var s := state[n];
      if Moment(s.nextFire) > now { return; }
      state := state[n := EntryState(s.entry, NextFire(cal(s.entry.expr), now))];
      RecordSchedule(n, s.entry, s.nextFire);
      StartFire(n, s.entry, s.nextFire);
    }

    /** One wake of the loop. */
    method FireDue(order: seq<Name>, now: int)
      requires CalendarOk(cal) && forall i | 0 <= i < |order| :: order[i] in state
      modifies `state, `records, `fired
      ensures World(Looping, [], now) == VisitAll(cal, old(World(Looping, order, now)))
    {
      ghost var begun := World(Looping, order, now);
      var i := 0;
      while i < |order|
        invariant 0 <= i <= |order| && state.Keys == old(state.Keys)
        invariant VisitAll(cal, World(Looping, order[i..], now)) == VisitAll(cal, begun)
      {
        assert order[i..][1..] == order[i + 1..];
        FireIfDue(order[i], now);
        i := i + 1;
      }
    }
  }
}
