/** What the approval broker promises over whole runs: any order of callers,
    gate answers, cancellations, revocations and clock readings. */
module ApprovalRuns {
  import opened Options
  import opened Approvals

  // --- every joiner is answered, with its asker's answer ---

  /** `log[i]` is the end of future `f`'s gate call about `key`. */
  predicate EndsAt(log: seq<Entry>, i: nat, f: nat, key: string) {
    i < |log| && log[i].Answered? && log[i].future == f && log[i].key == key
  }

  ghost predicate AnswersInv(w: World) {
    forall f: nat | f < |w.asks| && f < |w.b.futures| && w.b.futures[f].Some? ::
      exists i: nat :: EndsAt(w.log, i, f, w.asks[f].req.Key())
        && w.log[i].outcome.Granted? == w.b.futures[f].value
  }

  /** Resolved futures stay, and the one that `log` just ended, if any, is covered. */
  lemma AnswersKeep(w: World, w': World, ended: nat)
    requires AnswersInv(w) && w.log <= w'.log && w.asks <= w'.asks
    requires forall f: nat | f < |w'.asks| && f < |w'.b.futures| && w'.b.futures[f].Some? && f != ended ::
      f < |w.asks| && f < |w.b.futures| && w.b.futures[f] == w'.b.futures[f]
    requires ended < |w'.asks| && ended < |w'.b.futures| && w'.b.futures[ended].Some? ==>
      exists i: nat :: EndsAt(w'.log, i, ended, w'.asks[ended].req.Key())
        && w'.log[i].outcome.Granted? == w'.b.futures[ended].value
    ensures AnswersInv(w')
  {
    forall f: nat | f < |w'.asks| && f < |w'.b.futures| && w'.b.futures[f].Some?
      ensures exists i: nat :: (EndsAt(w'.log, i, f, w'.asks[f].req.Key())
                                && w'.log[i].outcome.Granted? == w'.b.futures[f].value)
    {
      if f != ended {
        var i: nat :| EndsAt(w.log, i, f, w.asks[f].req.Key())
          && w.log[i].outcome.Granted? == w.b.futures[f].value;
        assert EndsAt(w'.log, i, f, w'.asks[f].req.Key());
      }
    }
  }

  lemma AnswersGate(cfg: Config, w: World, c: Caller, outcome: Outcome, at: Time)
    requires FlightInv(w) && AnswersInv(w) && Enabled(w, GateEnds(c, outcome, at))
    ensures AnswersInv(AfterGate(cfg, w, c, outcome, at))
  {
    var f := w.askers[c];
    var w' := AfterGate(cfg, w, c, outcome, at);
    assert w'.log[|w.log|] == Answered(f, w.asks[f].req.Key(), outcome, w.asks[f].req.ttl, at);
    assert EndsAt(w'.log, |w.log|, f, w'.asks[f].req.Key());
    AnswersKeep(w, w', f);
  }

  lemma AnswersCheck(cfg: Config, w: World, c: Caller, req: Request, t: Readings)
    requires FlightInv(w) && AnswersInv(w)
    ensures AnswersInv(AfterCheck(cfg, w, c, req, t))
  {
    CheckFlight(cfg, w.b, req, t);
    AnswersKeep(w, AfterCheck(cfg, w, c, req, t), |AfterCheck(cfg, w, c, req, t).asks|);
  }

  lemma AnswersStep(cfg: Config, w: World, ev: Event)
    requires FlightInv(w) && AnswersInv(w)
    ensures AnswersInv(Next(cfg, w, ev))
  {
    if Enabled(w, ev) {
      match ev
      case Check(c, req, t) => AnswersCheck(cfg, w, c, req, t);
      case GateEnds(c, outcome, at) => AnswersGate(cfg, w, c, outcome, at);
      case JoinEnds(c) => AnswersKeep(w, Next(cfg, w, ev), |w.asks|);
      case JoinLeaves(_) =>
      case Revoke(_) => AnswersKeep(w, Next(cfg, w, ev), |w.asks|);
      case Peek(_, _) =>
    }
  }

  lemma {:induction false} AnswersHold(cfg: Config, start: Time, evs: seq<Event>)
    ensures AnswersInv(Exec(cfg, start, evs))
  {
    if evs != [] {
      AnswersHold(cfg, start, evs[..|evs| - 1]);
      FlightHolds(cfg, start, evs[..|evs| - 1]);
      AnswersStep(cfg, Exec(cfg, start, evs[..|evs| - 1]), evs[|evs| - 1]);
    }
  }

  /** A joiner's future is unresolved exactly while the caller that created it is
      still asking about the same key. Resolved, it holds that gate call's answer:
      true for a grant, false for a denial, a timeout, a failure, a cancellation. */
  lemma JoinersAreAnswered(cfg: Config, start: Time, evs: seq<Event>, c: Caller)
    requires c in Exec(cfg, start, evs).joiners
    ensures var w := Exec(cfg, start, evs);
      var f := w.joiners[c].future;
      && f < |w.asks| == |w.b.futures|
      && w.asks[f].req.Key() == w.joiners[c].req.Key()
      && (w.b.futures[f] == None <==> w.asks[f].caller in w.askers && w.askers[w.asks[f].caller] == f)
      && (w.b.futures[f].Some? ==> exists i: nat ::
            EndsAt(w.log, i, f, w.joiners[c].req.Key())
            && w.log[i].outcome.Granted? == w.b.futures[f].value)
  {
    FlightHolds(cfg, start, evs);
    AnswersHold(cfg, start, evs);
  }

  // --- a standing grant answers exactly while it stands ---

  /** The deadline of the last grant of `key` that nothing revoked since. */
  function Standing(log: seq<Entry>, key: string): Option<Time> {
    if log == [] then None
    else
      var last := log[|log| - 1];
      match last
      case Answered(_, k, outcome, ttl, at) =>
        if k == key && outcome.Granted? then Some(at + ttl) else Standing(log[..|log| - 1], key)
      case Revoked(k) => if k == key then None else Standing(log[..|log| - 1], key)
      case _ => Standing(log[..|log| - 1], key)
  }

  /** `log[i]` granted `key` and nothing after it granted or revoked `key`. */
  ghost predicate LastWord(log: seq<Entry>, i: nat, key: string) {
    && i < |log| && log[i].Answered? && log[i].key == key && log[i].outcome.Granted?
    && (forall j | i < j < |log| ::
          && (log[j].Answered? ==> log[j].key != key || !log[j].outcome.Granted?)
          && (log[j].Revoked? ==> log[j].key != key))
  }

  lemma {:induction false} StandingMeaning(log: seq<Entry>, key: string)
    ensures Standing(log, key).Some? ==>
      exists i: nat :: LastWord(log, i, key) && log[i].at + log[i].ttl == Standing(log, key).value
    ensures Standing(log, key).None? ==> forall i: nat :: !LastWord(log, i, key)
  {
    if log != [] {
      var rest := log[..|log| - 1];
      var last := log[|log| - 1];
      StandingMeaning(rest, key);
      forall i: nat | i < |rest|
        ensures LastWord(log, i, key) <==>
                (&& LastWord(rest, i, key)
                 && !(last.Answered? && last.key == key && last.outcome.Granted?)
                 && !(last.Revoked? && last.key == key))
      {
        assert forall j | 0 <= j < |rest| :: log[j] == rest[j];
      }
      if last.Answered? && last.key == key && last.outcome.Granted? {
        assert LastWord(log, |rest|, key);
      } else if Standing(log, key).Some? {
        var i: nat :| LastWord(rest, i, key) && rest[i].at + rest[i].ttl == Standing(rest, key).value;
        assert LastWord(log, i, key);
      }
    }
  }

  lemma StandingAppend(log: seq<Entry>, e: Entry, key: string)
    ensures Standing(log + [e], key) ==
      if e.Answered? && e.key == key && e.outcome.Granted? then Some(e.at + e.ttl)
      else if e.Revoked? && e.key == key then None
      else Standing(log, key)
  {
    assert (log + [e])[..|log + [e]| - 1] == log;
  }

  /** The store agrees with history about `key` at every instant from now on. */
  ghost predicate StoreInv(w: World, key: string) {
    && (key in w.b.expiry ==> Standing(w.log, key) == Some(w.b.expiry[key]))
    && (Standing(w.log, key).Some? && w.now < Standing(w.log, key).value ==> key in w.b.expiry)
  }

  /** `after` is `before` less some deadlines that lie at or before `now`. */
  ghost predicate OnlyLapsed(before: map<string, Time>, after: map<string, Time>, now: Time) {
    && (forall k | k in after :: k in before && after[k] == before[k])
    && (forall k | k in before && k !in after :: before[k] <= now)
  }

  /** What `check` does to the deadlines: it drops lapsed ones, nothing else. */
  lemma CheckDropsOnlyLapsed(cfg: Config, b: Broker, req: Request, t: Readings, now: Time)
    requires t.Ordered(now)
    ensures var b' := CheckStep(cfg, b, req, t).0;
      OnlyLapsed(b.expiry, b'.expiry, t.ask) && OnlyLapsed(b.deniedUntil, b'.deniedUntil, t.ask)
  {
  }

  predicate Quiet(e: Entry) { e.Asked? || e.Returned? || (e.Answered? && !e.outcome.Granted?) }

  lemma StoreQuiet(w: World, w': World, key: string)
    requires StoreInv(w, key) && w.now <= w'.now
    requires OnlyLapsed(w.b.expiry, w'.b.expiry, w'.now)
    requires |w.log| <= |w'.log| <= |w.log| + 2 && w'.log[..|w.log|] == w.log
    requires forall i | |w.log| <= i < |w'.log| :: Quiet(w'.log[i])
    ensures StoreInv(w', key)
  {
    assert Standing(w'.log, key) == Standing(w.log, key) by {
      if |w'.log| == |w.log| {
        assert w'.log == w.log;
      } else {
        StandingAppend(w.log, w'.log[|w.log|], key);
        if |w'.log| == |w.log| + 1 {
          assert w'.log == w.log + [w'.log[|w.log|]];
        } else {
          StandingAppend(w.log + [w'.log[|w.log|]], w'.log[|w.log| + 1], key);
          assert w'.log == w.log + [w'.log[|w.log|]] + [w'.log[|w.log| + 1]];
        }
      }
    }
  }

  lemma StoreGate(cfg: Config, w: World, c: Caller, outcome: Outcome, at: Time, key: string)
    requires StoreInv(w, key) && Enabled(w, GateEnds(c, outcome, at))
    ensures StoreInv(AfterGate(cfg, w, c, outcome, at), key)
  {
    var f := w.askers[c];
    var req := w.asks[f].req;
    var w' := AfterGate(cfg, w, c, outcome, at);
    if outcome.Granted? {
      var e := Answered(f, req.Key(), outcome, req.ttl, at);
      StandingAppend(w.log, e, key);
      StandingAppend(w.log + [e], Returned(c, req, true), key);
      assert w'.log == w.log + [e] + [Returned(c, req, true)];
    } else {
      StoreQuiet(w, w', key);
    }
  }

  lemma StoreStep(cfg: Config, w: World, ev: Event, key: string)
    requires StoreInv(w, key)
    ensures StoreInv(Next(cfg, w, ev), key)
  {
    if Enabled(w, ev) {
      match ev
      case Check(c, req, t) =>
        CheckDropsOnlyLapsed(cfg, w.b, req, t, w.now);
        StoreQuiet(w, AfterCheck(cfg, w, c, req, t), key);
      case GateEnds(c, outcome, at) => StoreGate(cfg, w, c, outcome, at, key);
      case JoinEnds(_) => StoreQuiet(w, Next(cfg, w, ev), key);
      case JoinLeaves(_) => StoreQuiet(w, Next(cfg, w, ev), key);
      case Revoke(k) => StandingAppend(w.log, Revoked(k), key);
      case Peek(_, _) => StoreQuiet(w, Next(cfg, w, ev), key);
    }
  }

  lemma {:induction false} StoreHolds(cfg: Config, start: Time, evs: seq<Event>, key: string)
    ensures StoreInv(Exec(cfg, start, evs), key)
  {
    if evs != [] {
      StoreHolds(cfg, start, evs[..|evs| - 1], key);
      StoreStep(cfg, Exec(cfg, start, evs[..|evs| - 1]), evs[|evs| - 1], key);
    }
  }

  /** In any reachable world a check is allowed without a question exactly when the
      last word on its key is an unrevoked grant whose lifetime is not over. */
  lemma AllowedExactlyWhileGranted(cfg: Config, start: Time, evs: seq<Event>, req: Request, t: Readings)
    requires t.Ordered(Exec(cfg, start, evs).now)
    ensures var w := Exec(cfg, start, evs);
      CheckStep(cfg, w.b, req, t).1.Allowed? <==>
      exists i: nat :: LastWord(w.log, i, req.Key()) && t.store < w.log[i].at + w.log[i].ttl
  {
    var w := Exec(cfg, start, evs);
    StoreHolds(cfg, start, evs, req.Key());
    StandingMeaning(w.log, req.Key());
    if i: nat :| LastWord(w.log, i, req.Key()) && t.store < w.log[i].at + w.log[i].ttl {
      var j: nat :| LastWord(w.log, j, req.Key())
        && w.log[j].at + w.log[j].ttl == Standing(w.log, req.Key()).value;
      assert i == j;
    }
  }

  // --- a denial keeps the question closed for the cooldown ---

  predicate DeniedAt(log: seq<Entry>, i: nat, key: string) {
    i < |log| && log[i].Answered? && log[i].key == key && log[i].outcome.Denied?
  }

  ghost predicate CooldownInv(cfg: Config, w: World, key: string) {
    && (forall i: nat | DeniedAt(w.log, i, key) ::
          || w.log[i].at + cfg.fallback.denyCooldown <= w.now
          || (key in w.b.deniedUntil
              && w.log[i].at + cfg.fallback.denyCooldown <= w.b.deniedUntil[key]))
    && (forall i: nat | DeniedAt(w.log, i, key) :: w.log[i].at <= w.now)
    && (forall i: nat, j: nat |
          DeniedAt(w.log, i, key) && i < j < |w.log| && w.log[j].Asked? && w.log[j].key == key ::
          w.log[i].at + cfg.fallback.denyCooldown <= w.log[j].at)
  }

  /** Entries that neither deny `key` nor ask about it leave its cooldown intact. */
  lemma CooldownQuiet(cfg: Config, w: World, w': World, key: string)
    requires CooldownInv(cfg, w, key) && w.now <= w'.now
    requires OnlyLapsed(w.b.deniedUntil, w'.b.deniedUntil, w'.now)
    requires |w.log| <= |w'.log| && w'.log[..|w.log|] == w.log
    requires forall i | |w.log| <= i < |w'.log| :: !DeniedAt(w'.log, i, key)
    requires forall i | |w.log| <= i < |w'.log| && w'.log[i].Asked? && w'.log[i].key == key ::
      && w'.log[i].at == w'.now
      && key !in w'.b.deniedUntil
    ensures CooldownInv(cfg, w', key)
  {
    assert forall i: nat | i < |w.log| :: w'.log[i] == w.log[i];
    assert forall i: nat | i < |w.log| :: DeniedAt(w'.log, i, key) == DeniedAt(w.log, i, key);
  }

  /** A check that asks has found no cooldown running for its key. */
  lemma AskingMeansNoCooldown(cfg: Config, b: Broker, req: Request, t: Readings)
    requires CheckStep(cfg, b, req, t).1.Asking?
    ensures req.Key() !in CheckStep(cfg, b, req, t).0.deniedUntil
  {
  }

  lemma CooldownGate(cfg: Config, w: World, c: Caller, outcome: Outcome, at: Time, key: string)
    requires CooldownInv(cfg, w, key) && Enabled(w, GateEnds(c, outcome, at))
    ensures CooldownInv(cfg, AfterGate(cfg, w, c, outcome, at), key)
  {
    var w' := AfterGate(cfg, w, c, outcome, at);
    assert forall i: nat | i < |w.log| :: w'.log[i] == w.log[i];
    assert forall i: nat | i < |w.log| :: DeniedAt(w'.log, i, key) == DeniedAt(w.log, i, key);
  }

  lemma CooldownStep(cfg: Config, w: World, ev: Event, key: string)
    requires CooldownInv(cfg, w, key)
    ensures CooldownInv(cfg, Next(cfg, w, ev), key)
  {
    var w' := Next(cfg, w, ev);
    if Enabled(w, ev) {
      if ev.GateEnds? {
        CooldownGate(cfg, w, ev.caller, ev.outcome, ev.at, key);
      } else {
        if ev.Check? {
          CheckDropsOnlyLapsed(cfg, w.b, ev.req, ev.t, w.now);
          if CheckStep(cfg, w.b, ev.req, ev.t).1.Asking? { AskingMeansNoCooldown(cfg, w.b, ev.req, ev.t); }
        }
        CooldownQuiet(cfg, w, w', key);
      }
    }
  }

  lemma {:induction false} CooldownHolds(cfg: Config, start: Time, evs: seq<Event>, key: string)
    ensures CooldownInv(cfg, Exec(cfg, start, evs), key)
  {
    if evs != [] {
      CooldownHolds(cfg, start, evs[..|evs| - 1], key);
      CooldownStep(cfg, Exec(cfg, start, evs[..|evs| - 1]), evs[|evs| - 1], key);
    }
  }

  /** After an explicit denial, no gate call about that key before the default
      policy's cooldown has passed. */
  lemma DenialCools(cfg: Config, start: Time, evs: seq<Event>, i: nat, j: nat)
    requires var log := Exec(cfg, start, evs).log;
      && i < j < |log| && log[i].Answered? && log[i].outcome.Denied?
      && log[j].Asked? && log[j].key == log[i].key
    ensures var log := Exec(cfg, start, evs).log;
      log[i].at + cfg.fallback.denyCooldown <= log[j].at
  {
    CooldownHolds(cfg, start, evs, Exec(cfg, start, evs).log[i].key);
  }

  // --- the sliding window ---

  /** When gate calls of this kind were made, oldest first. */
  function AsksOf(log: seq<Entry>, kind: string): seq<Time> {
    if log == [] then []
    else
      var older := AsksOf(log[..|log| - 1], kind);
      var last := log[|log| - 1];
      if last.Asked? && last.kind == kind then older + [last.at] else older
  }

  lemma AsksAppend(log: seq<Entry>, e: Entry, kind: string)
    ensures AsksOf(log + [e], kind) ==
      if e.Asked? && e.kind == kind then AsksOf(log, kind) + [e.at] else AsksOf(log, kind)
  {
    assert (log + [e])[..|log + [e]| - 1] == log;
  }

  /** How many of `xs` lie in the closed interval from `lo` to `hi`. */
  function CountIn(xs: seq<Time>, lo: Time, hi: Time): nat {
    if xs == [] then 0
    else CountIn(xs[..|xs| - 1], lo, hi) + (if lo <= xs[|xs| - 1] <= hi then 1 else 0)
  }

  lemma {:induction false} CountAfter(xs: seq<Time>, d: nat, lo: Time, hi: Time)
    requires d <= |xs| && forall i | 0 <= i < d :: xs[i] < lo
    ensures CountIn(xs, lo, hi) <= |xs| - d
  {
    if xs != [] {
      CountAfter(xs[..|xs| - 1], if d == |xs| then d - 1 else d, lo, hi);
    }
  }

  function Ceiling(limit: int): nat { if limit > 0 then limit else 0 }

  /** `kept` is exactly the tail of the history that a cutoff could still need, and
      no window of the history holds more asks than the limit. */
  ghost predicate WindowOk(asks: seq<Time>, kept: seq<Time>, now: Time, window: int, limit: int) {
    && |kept| <= |asks| && kept == asks[|asks| - |kept|..]
    && (forall i | 0 <= i < |asks| - |kept| :: asks[i] < now - window)
    && (forall i, j | 0 <= i <= j < |asks| :: asks[i] <= asks[j])
    && (forall i | 0 <= i < |asks| :: asks[i] <= now)
    && (forall lo, hi | hi - lo == window :: CountIn(asks, lo, hi) <= Ceiling(limit))
  }

  ghost predicate WindowInv(cfg: Config, w: World, kind: string) {
    WindowOk(AsksOf(w.log, kind), Recent(w.b, kind), w.now, cfg.For(kind).window, cfg.For(kind).rateLimit)
  }

  lemma {:induction false} DropOlderIsSuffix(xs: seq<Time>, cutoff: Time)
    ensures var ys := DropOlder(xs, cutoff);
      && |ys| <= |xs| && ys == xs[|xs| - |ys|..]
      && (forall i | 0 <= i < |xs| - |ys| :: xs[i] < cutoff)
      && (ys != [] ==> cutoff <= ys[0])
  {
    if xs != [] && xs[0] < cutoff {
      DropOlderIsSuffix(xs[1..], cutoff);
      var ys := DropOlder(xs, cutoff);
      assert xs[|xs| - |ys|..] == xs[1..][|xs| - 1 - |ys|..];
    }
  }

  /** One more ask at `at`, when fewer than the limit are younger than the cutoff. */
  lemma WindowAsk(asks: seq<Time>, d: nat, at: Time, window: int, limit: int)
    requires d <= |asks| && |asks| - d < limit
    requires forall i | 0 <= i < d :: asks[i] < at - window
    requires forall lo, hi | hi - lo == window :: CountIn(asks, lo, hi) <= Ceiling(limit)
    ensures forall lo, hi | hi - lo == window :: CountIn(asks + [at], lo, hi) <= Ceiling(limit)
  {
    forall lo, hi | hi - lo == window ensures CountIn(asks + [at], lo, hi) <= Ceiling(limit) {
      assert (asks + [at])[..|asks|] == asks;
      if lo <= at <= hi { CountAfter(asks, d, lo, hi); }
    }
  }

  /** What `check` does to the deques: prunes the one it counts, appends one ask. */
  lemma CheckRecent(cfg: Config, b: Broker, req: Request, t: Readings, kind: string)
    ensures var (b', verdict) := CheckStep(cfg, b, req, t);
      var kept := DropOlder(Recent(b, req.kind), t.rate - cfg.For(req.kind).window);
      && (kind != req.kind ==> Recent(b', kind) == Recent(b, kind))
      && (match verdict
          case Asking(_) => |kept| < cfg.For(req.kind).rateLimit && Recent(b', req.kind) == kept + [t.ask]
          case _ => Recent(b', req.kind) == Recent(b, req.kind) || Recent(b', req.kind) == kept)
  {
  }

  /** Dropping the leading entries older than a cutoff leaves what a cutoff needs. */
  lemma WindowDrop(asks: seq<Time>, rec: seq<Time>, now: Time, window: int, limit: int, cutoff: Time, later: Time)
    requires WindowOk(asks, rec, now, window, limit)
    requires now <= later && cutoff <= later - window
    ensures WindowOk(asks, rec, later, window, limit)
    ensures WindowOk(asks, DropOlder(rec, cutoff), later, window, limit)
  {
    var kept := DropOlder(rec, cutoff);
    DropOlderIsSuffix(rec, cutoff);
    assert kept == asks[|asks| - |kept|..];
    forall i | 0 <= i < |asks| - |kept| ensures asks[i] < later - window {
      if |asks| - |rec| <= i { assert asks[i] == rec[i - (|asks| - |rec|)]; }
    }
  }

  /** One more ask while fewer than the limit are kept. */
  lemma WindowPush(asks: seq<Time>, kept: seq<Time>, now: Time, window: int, limit: int)
    requires WindowOk(asks, kept, now, window, limit) && |kept| < limit
    ensures WindowOk(asks + [now], kept + [now], now, window, limit)
  {
    WindowAsk(asks, |asks| - |kept|, now, window, limit);
  }

  lemma WindowCheck(cfg: Config, w: World, c: Caller, req: Request, t: Readings, kind: string)
    requires WindowInv(cfg, w, kind) && t.Ordered(w.now)
    ensures WindowInv(cfg, AfterCheck(cfg, w, c, req, t), kind)
  {
    var policy := cfg.For(kind);
    var asks, rec := AsksOf(w.log, kind), Recent(w.b, kind);
    var cutoff := t.rate - policy.window;
    CheckRecent(cfg, w.b, req, t, kind);
    WindowDrop(asks, rec, w.now, policy.window, policy.rateLimit, cutoff, t.ask);
    match CheckStep(cfg, w.b, req, t).1
    case Asking(_) =>
      AsksAppend(w.log, Asked(req.kind, req.Key(), t.ask), kind);
      if kind == req.kind { WindowPush(asks, DropOlder(rec, cutoff), t.ask, policy.window, policy.rateLimit); }
    case Joined(_) =>
    case Allowed => AsksAppend(w.log, Returned(c, req, true), kind);
    case Refused(_) => AsksAppend(w.log, Returned(c, req, false), kind);
  }

  /** The end of a gate call is not an ask. */
  lemma GateAsksNothing(cfg: Config, w: World, c: Caller, outcome: Outcome, at: Time, kind: string)
    requires Enabled(w, GateEnds(c, outcome, at))
    ensures AsksOf(AfterGate(cfg, w, c, outcome, at).log, kind) == AsksOf(w.log, kind)
  {
    var f := w.askers[c];
    var req := w.asks[f].req;
    var e, back := Answered(f, req.Key(), outcome, req.ttl, at), Returned(c, req, outcome.Granted?);
    AsksAppend(w.log, e, kind);
    AsksAppend(w.log + [e], back, kind);
  }

  lemma WindowGate(cfg: Config, w: World, c: Caller, outcome: Outcome, at: Time, kind: string)
    requires WindowInv(cfg, w, kind) && Enabled(w, GateEnds(c, outcome, at))
    ensures WindowInv(cfg, AfterGate(cfg, w, c, outcome, at), kind)
  {
    var policy := cfg.For(kind);
    GateAsksNothing(cfg, w, c, outcome, at, kind);
    WindowDrop(AsksOf(w.log, kind), Recent(w.b, kind), w.now, policy.window, policy.rateLimit,
               at - policy.window, at);
  }

  /** An entry that is no ask. */
  lemma WindowEntry(cfg: Config, w: World, w': World, e: Entry, kind: string)
    requires WindowInv(cfg, w, kind) && !e.Asked?
    requires w'.log == w.log + [e] && w'.b.recent == w.b.recent && w'.now == w.now
    ensures WindowInv(cfg, w', kind)
  {
    AsksAppend(w.log, e, kind);
  }

  lemma WindowPeek(cfg: Config, w: World, w': World, kind: string)
    requires WindowInv(cfg, w, kind) && w'.log == w.log && w'.b.recent == w.b.recent && w.now <= w'.now
    ensures WindowInv(cfg, w', kind)
  {
    var policy := cfg.For(kind);
    WindowDrop(AsksOf(w.log, kind), Recent(w.b, kind), w.now, policy.window, policy.rateLimit,
               w'.now - policy.window, w'.now);
  }

  lemma WindowStep(cfg: Config, w: World, ev: Event, kind: string)
    requires WindowInv(cfg, w, kind)
    ensures WindowInv(cfg, Next(cfg, w, ev), kind)
  {
    if Enabled(w, ev) {
      match ev
      case Check(c, req, t) => WindowCheck(cfg, w, c, req, t, kind);
      case GateEnds(c, outcome, at) => WindowGate(cfg, w, c, outcome, at, kind);
      case JoinEnds(c) =>
        WindowEntry(cfg, w, Next(cfg, w, ev),
                    Returned(c, w.joiners[c].req, w.b.futures[w.joiners[c].future].value), kind);
      case JoinLeaves(_) =>
      case Revoke(key) => WindowEntry(cfg, w, Next(cfg, w, ev), Revoked(key), kind);
      case Peek(_, _) => WindowPeek(cfg, w, Next(cfg, w, ev), kind);
    }
  }

  lemma {:induction false} WindowHolds(cfg: Config, start: Time, evs: seq<Event>, kind: string)
    ensures WindowInv(cfg, Exec(cfg, start, evs), kind)
  {
    if evs == [] {
      forall lo, hi ensures CountIn([], lo, hi) == 0 {}
    } else {
      WindowHolds(cfg, start, evs[..|evs| - 1], kind);
      WindowStep(cfg, Exec(cfg, start, evs[..|evs| - 1]), evs[|evs| - 1], kind);
    }
  }

  /** However callers interleave and whatever their keys, every closed interval as
      long as a kind's window holds at most its limit of gate calls. */
  lemma SlidingWindow(cfg: Config, start: Time, evs: seq<Event>, kind: string, lo: Time)
    ensures CountIn(AsksOf(Exec(cfg, start, evs).log, kind), lo, lo + cfg.For(kind).window)
      <= Ceiling(cfg.For(kind).rateLimit)
  {
    WindowHolds(cfg, start, evs, kind);
  }

  // --- lazy expiry answers like an eager sweep ---

  datatype StoreOp = Grant(key: string, ttl: int) | Allows(key: string) | Withdraw(key: string) | Active
  datatype Timed = Timed(op: StoreOp, at: Time)

  /** What the store answers: whether a key is allowed, or which keys are active. */
  datatype Reply = Silent | Says(allowed: bool) | Keys(active: set<string>)

  /** The store as it is: an expired entry stays until something reads it. */
  function LazyStep(m: map<string, Time>, call: Timed): (map<string, Time>, Reply) {
    match call.op
    case Grant(key, ttl) => (m[key := call.at + ttl], Silent)
    case Allows(key) => (AfterRead(m, key, call.at), Says(Live(m, key, call.at)))
    case Withdraw(key) => (m - {key}, Silent)
    case Active => (LiveOnly(m, call.at), Keys(LiveOnly(m, call.at).Keys))
  }

  /** A store swept before every call, which then never looks at a deadline. */
  function EagerStep(m: map<string, Time>, call: Timed): (map<string, Time>, Reply) {
    var swept := LiveOnly(m, call.at);
    match call.op
    case Grant(key, ttl) => (swept[key := call.at + ttl], Silent)
    case Allows(key) => (swept, Says(key in swept))
    case Withdraw(key) => (swept - {key}, Silent)
    case Active => (swept, Keys(swept.Keys))
  }

  function Replies(step: (map<string, Time>, Timed) -> (map<string, Time>, Reply),
                   m: map<string, Time>, calls: seq<Timed>): seq<Reply>
    decreases |calls|
  {
    if calls == [] then []
    else
      var (m', reply) := step(m, calls[0]);
      [reply] + Replies(step, m', calls[1..])
  }

  /** From tables that agree about the future, the same replies for ever. */
  lemma {:induction false} LazyTracksEager(lazy: map<string, Time>, eager: map<string, Time>,
                                           now: Time, calls: seq<Timed>)
    requires LiveOnly(lazy, now) == LiveOnly(eager, now)
    requires forall i | 0 <= i < |calls| :: now <= calls[i].at
    requires forall i, j | 0 <= i <= j < |calls| :: calls[i].at <= calls[j].at
    ensures Replies(LazyStep, lazy, calls) == Replies(EagerStep, eager, calls)
    decreases |calls|
  {
    if calls != [] {
      var call := calls[0];
      LiveLater(lazy, now, call.at);
      LiveLater(eager, now, call.at);
      SweepsAgree(lazy, eager, call);
      LazyTracksEager(LazyStep(lazy, call).0, EagerStep(eager, call).0, call.at, calls[1..]);
    }
  }

  /** What is live later is decided by what is live now. */
  lemma LiveLater(m: map<string, Time>, now: Time, later: Time)
    requires now <= later
    ensures LiveOnly(m, later) == LiveOnly(LiveOnly(m, now), later)
  {
  }

  /** One call on tables that agree now: the same reply, and tables that agree now. */
  lemma SweepsAgree(lazy: map<string, Time>, eager: map<string, Time>, call: Timed)
    requires LiveOnly(lazy, call.at) == LiveOnly(eager, call.at)
    ensures LazyStep(lazy, call).1 == EagerStep(eager, call).1
    ensures LiveOnly(LazyStep(lazy, call).0, call.at) == LiveOnly(EagerStep(eager, call).0, call.at)
  {
    var swept := LiveOnly(eager, call.at);
    assert forall key :: key in swept <==> Live(lazy, key, call.at);
    assert forall key | key in swept :: lazy[key] == LiveOnly(lazy, call.at)[key] == swept[key];
  }
}
