/** What a check does, told from the history of the run alone: whom the broker lets
    through, refuses, joins to an open question, or asks about. */
module ApprovalChecks {
  import opened Options
  import opened Approvals
  import opened ApprovalRuns

  /** The last word on the key is a grant that has not run out. */
  ghost predicate Stands(log: seq<Entry>, key: string, now: Time) {
    exists i: nat :: LastWord(log, i, key) && now < log[i].at + log[i].ttl
  }

  /** The operator said no to the key, and that cooldown has not run out. */
  ghost predicate Cooling(log: seq<Entry>, key: string, cooldown: int, now: Time) {
    exists i: nat :: DeniedAt(log, i, key) && now < log[i].at + cooldown
  }

  /** The window that ends now holds as many questions of the kind as the policy allows. */
  predicate Full(log: seq<Entry>, kind: string, policy: Policy, now: Time) {
    CountIn(AsksOf(log, kind), now - policy.window, now) >= policy.rateLimit
  }

  /** A gate call about the key is outstanding, and this is its future. */
  predicate Pending(w: World, key: string, d: Caller) {
    d in w.askers && w.askers[d] < |w.asks| && w.asks[w.askers[d]].req.Key() == key
  }

  lemma StandsInTheTable(cfg: Config, start: Time, evs: seq<Event>, req: Request, t: Readings)
    requires t.Ordered(Exec(cfg, start, evs).now)
    ensures var w := Exec(cfg, start, evs);
      Live(w.b.expiry, req.Key(), t.store) <==> Stands(w.log, req.Key(), t.store)
  {
    AllowedExactlyWhileGranted(cfg, start, evs, req, t);
  }

  // --- cooldowns ---

  /** A deadline in the table is that of some denial. */
  ghost predicate DeadlineOk(cfg: Config, w: World, key: string) {
    key in w.b.deniedUntil ==>
      exists i: nat :: DeniedAt(w.log, i, key) && w.log[i].at + cfg.fallback.denyCooldown == w.b.deniedUntil[key]
  }

  lemma DeadlineKept(cfg: Config, w: World, w': World, key: string)
    requires DeadlineOk(cfg, w, key) && |w.log| <= |w'.log| && w'.log[..|w.log|] == w.log
    requires key in w'.b.deniedUntil ==> key in w.b.deniedUntil && w'.b.deniedUntil[key] == w.b.deniedUntil[key]
    ensures DeadlineOk(cfg, w', key)
  {
    if key in w'.b.deniedUntil {
      var i: nat :| DeniedAt(w.log, i, key) && w.log[i].at + cfg.fallback.denyCooldown == w.b.deniedUntil[key];
      assert w'.log[i] == w.log[i] && DeniedAt(w'.log, i, key);
    }
  }

  lemma DeadlineGate(cfg: Config, w: World, c: Caller, outcome: Outcome, at: Time, key: string)
    requires DeadlineOk(cfg, w, key) && Enabled(w, GateEnds(c, outcome, at))
    ensures DeadlineOk(cfg, AfterGate(cfg, w, c, outcome, at), key)
  {
    var w' := AfterGate(cfg, w, c, outcome, at);
    if outcome.Denied? && w.asks[w.askers[c]].req.Key() == key { assert DeniedAt(w'.log, |w.log|, key); }
    else { DeadlineKept(cfg, w, w', key); }
  }

  lemma DeadlineStep(cfg: Config, w: World, ev: Event, key: string)
    requires DeadlineOk(cfg, w, key)
    ensures DeadlineOk(cfg, Next(cfg, w, ev), key)
  {
    if Enabled(w, ev) {
      if ev.GateEnds? { DeadlineGate(cfg, w, ev.caller, ev.outcome, ev.at, key); }
      else {
        if ev.Check? { CheckDropsOnlyLapsed(cfg, w.b, ev.req, ev.t, w.now); }
        DeadlineKept(cfg, w, Next(cfg, w, ev), key);
      }
    }
  }

  lemma {:induction false} DeadlineHolds(cfg: Config, start: Time, evs: seq<Event>, key: string)
    ensures DeadlineOk(cfg, Exec(cfg, start, evs), key)
  {
    if evs != [] {
      DeadlineHolds(cfg, start, evs[..|evs| - 1], key);
      DeadlineStep(cfg, Exec(cfg, start, evs[..|evs| - 1]), evs[|evs| - 1], key);
    }
  }

  /** The cooldown table answers exactly as the denials of the run do. */
  lemma CoolingIsInTheTable(cfg: Config, start: Time, evs: seq<Event>, key: string, now: Time)
    requires Exec(cfg, start, evs).now <= now
    ensures var w := Exec(cfg, start, evs);
      Live(w.b.deniedUntil, key, now) <==> Cooling(w.log, key, cfg.fallback.denyCooldown, now)
  {
    CooldownHolds(cfg, start, evs, key);
    DeadlineHolds(cfg, start, evs, key);
  }

  // --- the rate ---

  lemma {:induction false} CountOfTail(xs: seq<Time>, d: nat, lo: Time, hi: Time)
    requires d <= |xs| && (forall i | 0 <= i < d :: xs[i] < lo) && (forall i | d <= i < |xs| :: lo <= xs[i] <= hi)
    ensures CountIn(xs, lo, hi) == |xs| - d
  {
    if xs != [] { CountOfTail(xs[..|xs| - 1], if d == |xs| then d - 1 else d, lo, hi); }
  }

  /** Pruned at the start of a window, the tail that is kept is what lies in it. */
  lemma KeptIsCounted(asks: seq<Time>, kept: seq<Time>, cutoff: Time, now: Time)
    requires |kept| <= |asks| && kept == asks[|asks| - |kept|..] && (kept != [] ==> cutoff <= kept[0])
    requires forall i | 0 <= i < |asks| - |kept| :: asks[i] < cutoff
    requires (forall i, j | 0 <= i <= j < |asks| :: asks[i] <= asks[j]) && forall i | 0 <= i < |asks| :: asks[i] <= now
    ensures CountIn(asks, cutoff, now) == |kept|
  {
    var d: nat := |asks| - |kept|;
    if kept != [] { assert kept[0] == asks[d]; }
    CountOfTail(asks, d, cutoff, now);
  }

  /** What pruning leaves is what lies in the window. */
  lemma FullIsInTheTable(cfg: Config, start: Time, evs: seq<Event>, kind: string, now: Time)
    requires Exec(cfg, start, evs).now <= now
    ensures var w := Exec(cfg, start, evs);
      && |DropOlder(Recent(w.b, kind), now - cfg.For(kind).window)|
           == CountIn(AsksOf(w.log, kind), now - cfg.For(kind).window, now)
      && RateAgrees(cfg.For(kind), w, kind, now)
  {
    var w, policy := Exec(cfg, start, evs), cfg.For(kind);
    WindowHolds(cfg, start, evs, kind);
    KeptInTheWindow(AsksOf(w.log, kind), Recent(w.b, kind), w.now, policy.window, policy.rateLimit, now);
  }

  lemma KeptInTheWindow(asks: seq<Time>, rec: seq<Time>, was: Time, window: int, limit: int, now: Time)
    requires WindowOk(asks, rec, was, window, limit) && was <= now
    ensures |DropOlder(rec, now - window)| == CountIn(asks, now - window, now)
  {
    WindowDrop(asks, rec, was, window, limit, now - window, now);
    DropOlderIsSuffix(rec, now - window);
    KeptIsCounted(asks, DropOlder(rec, now - window), now - window, now);
  }

  // --- what a check does ---

  lemma PendingIsInTheTable(cfg: Config, start: Time, evs: seq<Event>, key: string)
    ensures FlightAgrees(Exec(cfg, start, evs), key)
  {
    FlightHolds(cfg, start, evs);
    var w := Exec(cfg, start, evs);
    if key in w.b.inFlight { assert Pending(w, key, w.asks[w.b.inFlight[key]].caller); }
  }

  /** The entries name the subject, or some beginning of it with a star. */
  ghost predicate Barred(p: Policy, subject: string) {
    subject in p.neverAsk || exists k | 0 <= k <= |subject| :: subject[..k] + "*" in p.neverAsk
  }

  lemma RefusesMeaning(p: Policy, subject: string)
    ensures Refuses(p, subject) <==> Barred(p, subject)
  {
    if Refuses(p, subject) {
      var entry :| entry in p.neverAsk && Matches(entry, subject);
      if entry != subject {
        var k := |entry| - 1;
        assert entry == subject[..k] + "*";
      }
    }
    if k :| 0 <= k <= |subject| && subject[..k] + "*" in p.neverAsk {
      assert Matches(subject[..k] + "*", subject);
    }
  }

  /** What the history says about a request: nothing in it but the entries of the log, the
      callers whose gate call is outstanding, and the configuration. */
  ghost function Ruling(cfg: Config, w: World, req: Request, t: Readings): Verdict {
    var key, policy := req.Key(), cfg.For(req.kind);
    if Stands(w.log, key, t.store) then Allowed
    else if Barred(policy, req.subject) then Refused(NeverAsk)
    else if Cooling(w.log, key, cfg.fallback.denyCooldown, t.cooldown) then Refused(Cooldown)
    else if Full(w.log, req.kind, policy, t.rate) then Refused(RateLimit)
    else if d :| Pending(w, key, d) then Joined(w.askers[d])
    else Asking(|w.asks|)
  }

  /** What a ruling means for the caller. */
  predicate Obeys(w: World, w': World, c: Caller, req: Request, t: Readings, ruling: Verdict) {
    match ruling
    case Allowed => Settled(w, w', Returned(c, req, true))
    case Refused(_) => Settled(w, w', Returned(c, req, false))
    case Joined(f) => w'.log == w.log && w'.askers == w.askers && w'.joiners == w.joiners[c := Wait(req, f)]
    case Asking(f) =>
      && w'.log == w.log + [Asked(req.kind, req.Key(), t.ask)] && w'.asks == w.asks + [Ask(c, req)]
      && w'.askers == w.askers[c := f] && w'.joiners == w.joiners
  }

  predicate Settled(w: World, w': World, e: Entry) {
    w'.log == w.log + [e] && w'.askers == w.askers && w'.joiners == w.joiners
  }

  lemma VerdictIsObeyed(cfg: Config, w: World, c: Caller, req: Request, t: Readings)
    ensures Obeys(w, AfterCheck(cfg, w, c, req, t), c, req, t, CheckStep(cfg, w.b, req, t).1)
  {
  }

  /** The tables answer like the history. */
  ghost predicate TablesAgree(cfg: Config, w: World, req: Request, t: Readings) {
    && (Live(w.b.expiry, req.Key(), t.store) <==> Stands(w.log, req.Key(), t.store))
    && (Live(w.b.deniedUntil, req.Key(), t.cooldown)
        <==> Cooling(w.log, req.Key(), cfg.fallback.denyCooldown, t.cooldown))
    && RateAgrees(cfg.For(req.kind), w, req.kind, t.rate)
    && FlightAgrees(w, req.Key())
  }

  ghost predicate RateAgrees(policy: Policy, w: World, kind: string, now: Time) {
    |DropOlder(Recent(w.b, kind), now - policy.window)| >= policy.rateLimit <==> Full(w.log, kind, policy, now)
  }

  ghost predicate FlightAgrees(w: World, key: string) {
    && (key in w.b.inFlight <==> exists d :: Pending(w, key, d))
    && (forall d | Pending(w, key, d) :: key in w.b.inFlight && w.b.inFlight[key] == w.askers[d])
    && |w.b.futures| == |w.asks|
  }

  lemma VerdictIsRuling(cfg: Config, w: World, req: Request, t: Readings)
    requires TablesAgree(cfg, w, req, t)
    ensures CheckStep(cfg, w.b, req, t).1 == Ruling(cfg, w, req, t)
  {
    RefusesMeaning(cfg.For(req.kind), req.subject);
  }

  lemma TheyAgree(cfg: Config, start: Time, evs: seq<Event>, req: Request, t: Readings)
    requires t.Ordered(Exec(cfg, start, evs).now)
    ensures TablesAgree(cfg, Exec(cfg, start, evs), req, t)
  {
    StandsInTheTable(cfg, start, evs, req, t);
    CoolingIsInTheTable(cfg, start, evs, req.Key(), t.cooldown);
    FullIsInTheTable(cfg, start, evs, req.kind, t.rate);
    PendingIsInTheTable(cfg, start, evs, req.Key());
  }

  /** In every run a check is let through exactly while a grant of its key stands; past
      that it is refused by a never-ask entry, or for a cooldown exactly when the log has a
      denial of its key, and nothing but a denial, younger than the cooldown, or for the
      rate exactly when the window holds the limit of questions of its kind; else it joins
      the question about its key that is open, and asks when none is. */
  lemma ChecksGoByHistory(cfg: Config, start: Time, evs: seq<Event>, c: Caller, req: Request, t: Readings)
    requires Enabled(Exec(cfg, start, evs), Check(c, req, t))
    ensures var w := Exec(cfg, start, evs);
      && CheckStep(cfg, w.b, req, t).1 == Ruling(cfg, w, req, t)
      && Obeys(w, Next(cfg, w, Check(c, req, t)), c, req, t, Ruling(cfg, w, req, t))
  {
    var w := Exec(cfg, start, evs);
    TheyAgree(cfg, start, evs, req, t);
    VerdictIsRuling(cfg, w, req, t);
    VerdictIsObeyed(cfg, w, c, req, t);
  }

  // --- nobody is answered twice ---

  predicate AnsweredAt(log: seq<Entry>, n: int, c: Caller) { 0 <= n < |log| && log[n].Returned? && log[n].caller == c }

  /** Whoever has an answer is not waiting for one, and whoever waits does it in one place. */
  ghost predicate OnceOk(w: World) {
    && w.askers.Keys !! w.joiners.Keys && w.askers.Keys <= w.used && w.joiners.Keys <= w.used
    && (forall n, c | AnsweredAt(w.log, n, c) :: c in w.used && c !in w.askers && c !in w.joiners)
    && (forall n, m, c | AnsweredAt(w.log, n, c) && AnsweredAt(w.log, m, c) :: n == m)
  }

  /** One caller stops waiting or starts to, and may be answered. */
  lemma OnceMore(w: World, w': World, c: Caller)
    requires OnceOk(w) && |w.log| <= |w'.log| && w'.log[..|w.log|] == w.log
    requires c !in w.used || c in w.askers || c in w.joiners
    requires w'.used == w.used + {c} && w'.askers.Keys - {c} == w.askers.Keys - {c}
    requires w'.joiners.Keys - {c} == w.joiners.Keys - {c} && !(c in w'.askers && c in w'.joiners)
    requires forall n, d | |w.log| <= n && AnsweredAt(w'.log, n, d) :: d == c && c !in w'.askers && c !in w'.joiners
    requires forall n, m | |w.log| <= n && |w.log| <= m && AnsweredAt(w'.log, n, c) && AnsweredAt(w'.log, m, c) ::
      n == m
    ensures OnceOk(w')
  {
    forall n, d ensures n < |w.log| ==> (AnsweredAt(w'.log, n, d) <==> AnsweredAt(w.log, n, d)) {
      if 0 <= n < |w.log| { assert w'.log[n] == w.log[n]; }
    }
    forall d | d != c ensures (d in w'.askers <==> d in w.askers) && (d in w'.joiners <==> d in w.joiners) {
      assert d in w'.askers.Keys - {c} <==> d in w.askers.Keys - {c};
      assert d in w'.joiners.Keys - {c} <==> d in w.joiners.Keys - {c};
    }
  }

  lemma OnceCheck(cfg: Config, w: World, c: Caller, req: Request, t: Readings)
    requires OnceOk(w) && c !in w.used
    ensures OnceOk(AfterCheck(cfg, w, c, req, t))
  {
    VerdictIsObeyed(cfg, w, c, req, t);
    var w' := AfterCheck(cfg, w, c, req, t);
    assert w'.log[..|w.log|] == w.log;
    OnceMore(w, w', c);
  }

  lemma OnceStep(cfg: Config, w: World, ev: Event)
    requires OnceOk(w)
    ensures OnceOk(Next(cfg, w, ev))
  {
    if Enabled(w, ev) {
      var w' := Next(cfg, w, ev);
      assert w'.log[..|w.log|] == w.log;
      match ev
      case Check(c, req, t) => OnceCheck(cfg, w, c, req, t);
      case GateEnds(c, _, _) => OnceMore(w, w', c);
      case JoinEnds(c) => OnceMore(w, w', c);
      case JoinLeaves(c) => OnceMore(w, w', c);
      case Revoke(_) =>
        forall n, d ensures AnsweredAt(w'.log, n, d) <==> AnsweredAt(w.log, n, d) {
          if 0 <= n < |w.log| { assert w'.log[n] == w.log[n]; }
        }
      case Peek(_, _) =>
    }
  }

  /** Every caller is answered at most once in any run, and does not wait any more then. */
  lemma AnsweredOnce(cfg: Config, start: Time, evs: seq<Event>)
    ensures var w := Exec(cfg, start, evs);
      && (forall n, m, c | AnsweredAt(w.log, n, c) && AnsweredAt(w.log, m, c) :: n == m)
      && (forall n, c | AnsweredAt(w.log, n, c) :: c !in w.askers && c !in w.joiners)
  {
    OnceHolds(cfg, start, evs);
  }

  lemma {:induction false} OnceHolds(cfg: Config, start: Time, evs: seq<Event>)
    ensures OnceOk(Exec(cfg, start, evs))
  {
    if evs != [] {
      OnceHolds(cfg, start, evs[..|evs| - 1]);
      OnceStep(cfg, Exec(cfg, start, evs[..|evs| - 1]), evs[|evs| - 1]);
    }
  }
}
