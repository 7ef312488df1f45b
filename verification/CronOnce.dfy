/** One-shot cron entries: fired first, recorded after. */
module CronOnce {
  import opened Options

  type Name = nat

  /** `armed` are the entries whose pending time this process has not used up yet;
      `spent` is durable; `firing` is started and not yet recorded. `fired` and `torn`
      are history: every start, and every start whose record a crash prevented. */
  datatype World = World(
    armed: set<Name>,
    spent: set<Name>,
    firing: Option<Name>,
    fired: seq<Name>,
    torn: seq<Name>)

  const INIT := World({}, {}, None, [], [])

  datatype Event =
    | Arm(names: set<Name>)   // a start-up, or a reload of new or edited entries
    | Due(name: Name)         // the loop finds the entry due
    | Record
    | Crash

  function Next(w: World, ev: Event): World {
    match ev
    case Arm(names) => if w.firing.Some? then w else w.(armed := w.armed + names)
    case Due(n) =>
      if n !in w.armed || w.firing.Some? then w
      else if n in w.spent then w.(armed := w.armed - {n})
      else w.(armed := w.armed - {n}, firing := Some(n), fired := w.fired + [n])
    case Record =>
      if w.firing.None? then w else w.(spent := w.spent + {w.firing.value}, firing := None)
    case Crash =>
      World({}, w.spent, None, w.fired, if w.firing.Some? then w.torn + [w.firing.value] else w.torn)
  }

  function Exec(evs: seq<Event>): World {
    if |evs| == 0 then INIT else Next(Exec(evs[..|evs| - 1]), evs[|evs| - 1])
  }

  function Count(names: seq<Name>, n: Name): nat {
    if |names| == 0 then 0 else Count(names[..|names| - 1], n) + if names[|names| - 1] == n then 1 else 0
  }

  lemma CountMore(names: seq<Name>, m: Name, n: Name)
    ensures Count(names + [m], n) == Count(names, n) + if m == n then 1 else 0
  {
    assert (names + [m])[..|names|] == names;
  }

  ghost predicate Inv(w: World, n: Name) {
    && (w.firing.Some? ==> w.firing.value !in w.spent)
    && Count(w.fired, n) == Count(w.torn, n) + if n in w.spent || w.firing == Some(n) then 1 else 0
  }

  lemma StepInv(w: World, ev: Event, n: Name)
    requires Inv(w, n)
    ensures Inv(Next(w, ev), n)
  {
    match ev
    case Arm(_) =>
    case Due(m) => CountMore(w.fired, m, n);
    case Record =>
    case Crash => if w.firing.Some? { CountMore(w.torn, w.firing.value, n); }
  }

  lemma {:induction false} Holds(evs: seq<Event>, n: Name)
    ensures Inv(Exec(evs), n)
  {
    if |evs| != 0 {
      Holds(evs[..|evs| - 1], n);
      StepInv(Exec(evs[..|evs| - 1]), evs[|evs| - 1], n);
    }
  }

  /** A one-shot entry fires once, and once more for every crash that comes between its
      start and its record: at most once over a run if and only if no crash does, or it
      has not been started again since the one that did. */
  lemma FiresOncePerTornStart(evs: seq<Event>, n: Name)
    ensures var w := Exec(evs);
      && Count(w.fired, n) <= 1 + Count(w.torn, n)
      && Count(w.torn, n) <= Count(w.fired, n)
      && (Count(w.fired, n) <= 1 <==>
            Count(w.torn, n) == 0 || (Count(w.torn, n) == 1 && n !in w.spent && w.firing != Some(n)))
  {
    Holds(evs, n);
  }

  /** Once recorded, the name is spent for good: no reload, edit or restart fires it. */
  lemma {:induction false} SpentIsForGood(evs: seq<Event>, k: nat, n: Name)
    requires k <= |evs| && n in Exec(evs[..k]).spent
    ensures n in Exec(evs).spent && Count(Exec(evs).fired, n) == Count(Exec(evs[..k]).fired, n)
    decreases |evs|
  {
    if k == |evs| {
      assert evs[..k] == evs;
    } else {
      var past := evs[..|evs| - 1];
      assert past[..k] == evs[..k];
      SpentIsForGood(past, k, n);
      Holds(past, n);
      var w, ev := Exec(past), evs[|evs| - 1];
      if ev.Due? { CountMore(w.fired, ev.name, n); }
    }
  }

  /** A start-up or a reload armed the entry, and the loop has not come to it since. */
  predicate ArmedSince(evs: seq<Event>, n: Name)
    decreases |evs|
  {
    |evs| != 0 &&
    var past, ev := evs[..|evs| - 1], evs[|evs| - 1];
    match ev
    case Arm(names) => ArmedSince(past, n) || (n in names && Exec(past).firing.None?)
    case Due(m) => ArmedSince(past, n) && (m != n || Exec(past).firing.Some?)
    case Record => ArmedSince(past, n)
    case Crash => false
  }

  /** Its record was written after a start of it. */
  predicate RecordedSince(evs: seq<Event>, n: Name)
    decreases |evs|
  {
    |evs| != 0 &&
    var past, ev := evs[..|evs| - 1], evs[|evs| - 1];
    RecordedSince(past, n) || (ev.Record? && Exec(past).firing == Some(n))
  }

  lemma {:induction false} TablesAgree(evs: seq<Event>, n: Name)
    ensures (n in Exec(evs).armed <==> ArmedSince(evs, n)) && (n in Exec(evs).spent <==> RecordedSince(evs, n))
  {
    if |evs| != 0 { TablesAgree(evs[..|evs| - 1], n); }
  }

  /** The loop starts an entry exactly when it was armed and not come to since, no start of
      it was ever recorded, and none is going on. */
  lemma FiresWhenArmed(evs: seq<Event>, n: Name)
    ensures var w, w' := Exec(evs), Next(Exec(evs), Due(n));
      w'.fired == w.fired + if ArmedSince(evs, n) && !RecordedSince(evs, n) && w.firing.None? then [n] else []
  {
    TablesAgree(evs, n);
  }
}
