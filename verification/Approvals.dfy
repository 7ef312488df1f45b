/** The approval broker as a step machine: what one synchronous stretch of
    `ApprovalBroker` does to its tables, and the world of callers around it. */
module Approvals {
  import opened Options

  type Time = int
  type Caller = nat

  datatype Request = Request(kind: string, subject: string, ttl: int) {
    function Key(): string { KeyOf(kind, subject) }
  }

  function KeyOf(kind: string, subject: string): string { kind + ":" + subject }

  datatype Policy = Policy(neverAsk: set<string>, rateLimit: int, window: int, denyCooldown: int)

  datatype Config = Config(fallback: Policy, perKind: map<string, Policy>) {
    function For(kind: string): Policy {
      if kind in perKind then perKind[kind] else fallback
    }
  }

  predicate Matches(entry: string, subject: string) {
    || (entry != "" && entry[|entry| - 1] == '*' && entry[..|entry| - 1] <= subject)
    || entry == subject
  }

  predicate Refuses(p: Policy, subject: string) {
    exists entry | entry in p.neverAsk :: Matches(entry, subject)
  }

  // --- the grant store ---

  predicate Live(expiry: map<string, Time>, key: string, now: Time) {
    key in expiry && now < expiry[key]
  }

  /** What an eager sweep at `now` leaves of a table of deadlines. */
  function LiveOnly(expiry: map<string, Time>, now: Time): map<string, Time> {
    map key | key in expiry && now < expiry[key] :: expiry[key]
  }

  /** The table after a read of `key`: a lapsed entry goes, and only that one. */
  function AfterRead(expiry: map<string, Time>, key: string, now: Time): map<string, Time> {
    if key in expiry && expiry[key] <= now then expiry - {key} else expiry
  }

  // --- the broker's tables ---

  /** `futures[f]` is None while future `f` is unresolved. */
  datatype Broker = Broker(
    expiry: map<string, Time>,
    recent: map<string, seq<Time>>,
    inFlight: map<string, nat>,
    deniedUntil: map<string, Time>,
    futures: seq<Option<bool>>)

  function Recent(b: Broker, kind: string): seq<Time> {
    if kind in b.recent then b.recent[kind] else []
  }

  /** `xs` without its leading entries older than `cutoff`. */
  function DropOlder(xs: seq<Time>, cutoff: Time): seq<Time> {
    if xs != [] && xs[0] < cutoff then DropOlder(xs[1..], cutoff) else xs
  }

  datatype Reason = NeverAsk | Cooldown | RateLimit

  datatype Verdict = Allowed | Refused(reason: Reason) | Joined(future: nat) | Asking(future: nat)

  datatype Outcome = Granted | Denied | TimedOut | Raised | Cancelled

  /** The clock readings one `check` makes, in the order it makes them. */
  datatype Readings = Readings(store: Time, cooldown: Time, rate: Time, ask: Time) {
    predicate Ordered(now: Time) { now <= store <= cooldown <= rate <= ask }
  }

  function CheckStep(cfg: Config, b: Broker, req: Request, t: Readings): (Broker, Verdict) {
    var key := req.Key();
    var policy := cfg.For(req.kind);
    var b1 := b.(expiry := AfterRead(b.expiry, key, t.store));
    if Live(b.expiry, key, t.store) then (b1, Allowed)
    else if Refuses(policy, req.subject) then (b1, Refused(NeverAsk))
    else
      var b2 := b1.(deniedUntil := AfterRead(b1.deniedUntil, key, t.cooldown));
      if Live(b1.deniedUntil, key, t.cooldown) then (b2, Refused(Cooldown))
      else
        var kept := DropOlder(Recent(b2, req.kind), t.rate - policy.window);
        var b3 := b2.(recent := b2.recent[req.kind := kept]);
        if |kept| >= policy.rateLimit then
          (b3.(expiry := LiveOnly(b3.expiry, t.ask)), Refused(RateLimit))
        else if key in b3.inFlight then (b3, Joined(b3.inFlight[key]))
        else
          (b3.(inFlight := b3.inFlight[key := |b3.futures|],
               futures := b3.futures + [None],
               recent := b3.recent[req.kind := kept + [t.ask]]),
           Asking(|b3.futures|))
  }

  /** The stretch after the gate call of future `f` ends with `outcome`. */
  function SettleStep(cfg: Config, b: Broker, req: Request, f: nat, outcome: Outcome, t: Time): Broker
    requires f < |b.futures|
  {
    var key := req.Key();
    b.(expiry := if outcome.Granted? then b.expiry[key := t + req.ttl] else b.expiry,
       deniedUntil := if outcome.Denied? then b.deniedUntil[key := t + cfg.fallback.denyCooldown]
                      else b.deniedUntil,
       inFlight := b.inFlight - {key},
       futures := if b.futures[f] == None then b.futures[f := Some(outcome.Granted?)] else b.futures)
  }

  // --- the world: callers, history, and every interleaving of them ---

  datatype Ask = Ask(caller: Caller, req: Request)
  datatype Wait = Wait(req: Request, future: nat)

  datatype Entry =
    | Asked(kind: string, key: string, at: Time)
    | Answered(future: nat, key: string, outcome: Outcome, ttl: int, at: Time)
    | Revoked(key: string)
    | Returned(caller: Caller, req: Request, answer: bool)

  /** `asks[f]` is who created future `f`, and for what. `askers` maps the callers
      whose gate call is still outstanding to their future. */
  datatype World = World(
    b: Broker,
    asks: seq<Ask>,
    askers: map<Caller, nat>,
    joiners: map<Caller, Wait>,
    used: set<Caller>,
    log: seq<Entry>,
    now: Time)

  datatype Event =
    | Check(caller: Caller, req: Request, t: Readings)
    | GateEnds(caller: Caller, outcome: Outcome, at: Time)
    | JoinEnds(caller: Caller)
    | JoinLeaves(caller: Caller)
    | Revoke(key: string)
    | Peek(key: string, at: Time)

  const EMPTY := Broker(map[], map[], map[], map[], [])

  function Start(now: Time): World {
    World(EMPTY, [], map[], map[], {}, [], now)
  }

  predicate Enabled(w: World, ev: Event) {
    match ev
    case Check(c, _, t) => c !in w.used && t.Ordered(w.now)
    case GateEnds(c, _, at) => c in w.askers && w.askers[c] < |w.asks| == |w.b.futures| && w.now <= at
    case JoinEnds(c) =>
      c in w.joiners && w.joiners[c].future < |w.b.futures| && w.b.futures[w.joiners[c].future].Some?
    case JoinLeaves(c) => c in w.joiners
    case Revoke(_) => true
    case Peek(_, at) => w.now <= at
  }

  function AfterCheck(cfg: Config, w: World, c: Caller, req: Request, t: Readings): World {
    var (b, verdict) := CheckStep(cfg, w.b, req, t);
    var w1 := w.(b := b, used := w.used + {c}, now := t.ask);
    match verdict
    case Allowed => w1.(log := w.log + [Returned(c, req, true)])
    case Refused(_) => w1.(log := w.log + [Returned(c, req, false)])
    case Joined(f) => w1.(joiners := w.joiners[c := Wait(req, f)])
    case Asking(f) =>
      w1.(asks := w.asks + [Ask(c, req)],
          askers := w.askers[c := f],
          log := w.log + [Asked(req.kind, req.Key(), t.ask)])
  }

  function AfterGate(cfg: Config, w: World, c: Caller, outcome: Outcome, at: Time): World
    requires Enabled(w, GateEnds(c, outcome, at))
  {
    var f := w.askers[c];
    var req := w.asks[f].req;
    var answered := w.log + [Answered(f, req.Key(), outcome, req.ttl, at)];
    w.(b := SettleStep(cfg, w.b, req, f, outcome, at),
       askers := w.askers - {c},
       // A cancelled asker raises instead of returning.
       log := if outcome.Cancelled? then answered
              else answered + [Returned(c, req, outcome.Granted?)],
       now := at)
  }

  function Next(cfg: Config, w: World, ev: Event): World {
    if !Enabled(w, ev) then w else
    match ev
    case Check(c, req, t) => AfterCheck(cfg, w, c, req, t)
    case GateEnds(c, outcome, at) => AfterGate(cfg, w, c, outcome, at)
    case JoinEnds(c) =>
      var wait := w.joiners[c];
      w.(joiners := w.joiners - {c},
         log := w.log + [Returned(c, wait.req, w.b.futures[wait.future].value)])
    case JoinLeaves(c) => w.(joiners := w.joiners - {c})
    case Revoke(key) => w.(b := w.b.(expiry := w.b.expiry - {key}), log := w.log + [Revoked(key)])
    case Peek(key, at) => w.(b := w.b.(expiry := AfterRead(w.b.expiry, key, at)), now := at)
  }

  /** The world after any sequence of events; a disabled event changes nothing. */
  function Exec(cfg: Config, start: Time, evs: seq<Event>): World {
    if evs == [] then Start(start)
    else Next(cfg, Exec(cfg, start, evs[..|evs| - 1]), evs[|evs| - 1])
  }

  // --- single flight ---

  ghost predicate FlightInv(w: World) {
    && |w.asks| == |w.b.futures|
    && (forall c | c in w.askers ::
          && w.askers[c] < |w.asks|
          && w.asks[w.askers[c]].caller == c
          && w.b.futures[w.askers[c]] == None
          && w.asks[w.askers[c]].req.Key() in w.b.inFlight
          && w.b.inFlight[w.asks[w.askers[c]].req.Key()] == w.askers[c])
    && (forall f: nat | f < |w.b.futures| && w.b.futures[f] == None ::
          w.asks[f].caller in w.askers && w.askers[w.asks[f].caller] == f)
    && (forall key | key in w.b.inFlight ::
          && w.b.inFlight[key] < |w.asks|
          && w.b.futures[w.b.inFlight[key]] == None
          && w.asks[w.b.inFlight[key]].req.Key() == key)
    && (forall c | c in w.joiners ::
          && w.joiners[c].future < |w.asks|
          && w.asks[w.joiners[c].future].req.Key() == w.joiners[c].req.Key())
    && w.askers.Keys <= w.used && w.joiners.Keys <= w.used
  }

  lemma FlightStep(cfg: Config, w: World, ev: Event)
    requires FlightInv(w)
    ensures FlightInv(Next(cfg, w, ev))
  {
    if Enabled(w, ev) {
      match ev
      case Check(c, req, t) => FlightCheck(cfg, w, c, req, t);
      case GateEnds(c, outcome, at) => FlightGate(cfg, w, c, outcome, at);
      case JoinEnds(_) =>
      case JoinLeaves(_) =>
      case Revoke(_) =>
      case Peek(_, _) =>
    }
  }

  /** What `check` can do to the single-flight tables, by verdict. */
  lemma CheckFlight(cfg: Config, b: Broker, req: Request, t: Readings)
    ensures var (b', verdict) := CheckStep(cfg, b, req, t);
      match verdict
      case Asking(f) =>
        && f == |b.futures| && req.Key() !in b.inFlight
        && b'.futures == b.futures + [None] && b'.inFlight == b.inFlight[req.Key() := f]
      case Joined(f) =>
        && req.Key() in b.inFlight && f == b.inFlight[req.Key()]
        && b'.futures == b.futures && b'.inFlight == b.inFlight
      case _ => b'.futures == b.futures && b'.inFlight == b.inFlight
  {
  }

  lemma FlightCheck(cfg: Config, w: World, c: Caller, req: Request, t: Readings)
    requires FlightInv(w) && c !in w.used
    ensures FlightInv(AfterCheck(cfg, w, c, req, t))
  {
    CheckFlight(cfg, w.b, req, t);
    var (b, verdict) := CheckStep(cfg, w.b, req, t);
    var w' := AfterCheck(cfg, w, c, req, t);
    match verdict
    case Asking(f) => FlightAsk(w, w', c, req);
    case Joined(_) =>
    case Allowed =>
    case Refused(_) =>
  }

  lemma FlightAsk(w: World, w': World, c: Caller, req: Request)
    requires FlightInv(w) && c !in w.used && req.Key() !in w.b.inFlight
    requires w'.asks == w.asks + [Ask(c, req)] && w'.b.futures == w.b.futures + [None]
    requires w'.askers == w.askers[c := |w.asks|]
    requires w'.b.inFlight == w.b.inFlight[req.Key() := |w.asks|]
    requires w'.joiners == w.joiners && w'.used == w.used + {c}
    ensures FlightInv(w')
  {
    assert c !in w.askers && c !in w.joiners;
    forall f: nat | f < |w.asks| ensures w'.asks[f] == w.asks[f] && w'.b.futures[f] == w.b.futures[f] {}
    forall f: nat | f < |w'.b.futures| && w'.b.futures[f] == None
      ensures w'.asks[f].caller in w'.askers && w'.askers[w'.asks[f].caller] == f
    {
      if f < |w.asks| { assert w.asks[f].caller in w.askers; }
    }
  }

  /** What the end of a gate call does to the single-flight tables. */
  lemma FlightEnd(w: World, w': World, c: Caller, f: nat, answer: bool)
    requires FlightInv(w) && c in w.askers && f == w.askers[c]
    requires w'.asks == w.asks && w'.askers == w.askers - {c} && w'.joiners == w.joiners && w'.used == w.used
    requires w'.b.inFlight == w.b.inFlight - {w.asks[f].req.Key()}
    requires w'.b.futures == w.b.futures[f := Some(answer)]
    ensures FlightInv(w')
  {
  }

  lemma FlightGate(cfg: Config, w: World, c: Caller, outcome: Outcome, at: Time)
    requires FlightInv(w) && Enabled(w, GateEnds(c, outcome, at))
    ensures FlightInv(AfterGate(cfg, w, c, outcome, at))
  {
    FlightEnd(w, AfterGate(cfg, w, c, outcome, at), c, w.askers[c], outcome.Granted?);
  }

  lemma {:induction false} FlightHolds(cfg: Config, start: Time, evs: seq<Event>)
    ensures FlightInv(Exec(cfg, start, evs))
  {
    if evs != [] {
      FlightHolds(cfg, start, evs[..|evs| - 1]);
      FlightStep(cfg, Exec(cfg, start, evs[..|evs| - 1]), evs[|evs| - 1]);
    }
  }

  /** At most one gate call is outstanding per key. */
  lemma SingleFlight(cfg: Config, start: Time, evs: seq<Event>, c: Caller, d: Caller)
    requires var w := Exec(cfg, start, evs);
      && c in w.askers && d in w.askers
      && w.askers[c] < |w.asks| && w.askers[d] < |w.asks|
      && w.asks[w.askers[c]].req.Key() == w.asks[w.askers[d]].req.Key()
    ensures c == d
  {
    FlightHolds(cfg, start, evs);
  }
}
