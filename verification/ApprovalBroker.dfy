/** The grant store and the broker in the form the daemon keeps them: objects whose
    tables the methods update. Each method is one stretch without an await, and
    leaves exactly the tables the step machine computes. */
module ApprovalBroker {
  import opened Options
  import opened Approvals

  class GrantStore {
    var expiry: map<string, Time>

    constructor ()
      ensures expiry == map[]
    {
      expiry := map[];
    }

    method Grant(key: string, ttl: int, now: Time)
      modifies this
      ensures expiry == old(expiry)[key := now + ttl]
    {
      expiry := expiry[key := now + ttl];
    }

    method Allows(key: string, now: Time) returns (ok: bool)
      modifies this
      ensures ok == Live(old(expiry), key, now)
      ensures expiry == AfterRead(old(expiry), key, now)
      ensures LiveOnly(expiry, now) == LiveOnly(old(expiry), now)
    {
      if key !in expiry { return false; }
      if now >= expiry[key] {
        expiry := expiry - {key};
        return false;
      }
      return true;
    }

    method Revoke(key: string)
      modifies this
      ensures expiry == old(expiry) - {key}
    {
      expiry := expiry - {key};
    }

    /** The unexpired keys. Asking each one sweeps the table as a side effect. */
    method Active(now: Time) returns (live: set<string>)
      modifies this
      ensures expiry == LiveOnly(old(expiry), now) && live == expiry.Keys
    {
      live := {};
      var todo := expiry.Keys;
      while todo != {}
        invariant todo <= expiry.Keys <= old(expiry).Keys && live == expiry.Keys - todo
        invariant forall k | k in expiry :: expiry[k] == old(expiry)[k]
        invariant forall k | k in live :: now < expiry[k]
        invariant forall k | k in old(expiry) && k !in expiry :: old(expiry)[k] <= now
        decreases |todo|
      {
        var key :| key in todo;
        var ok := Allows(key, now);
        todo := todo - {key};
        if ok { live := live + {key}; }
      }
    }
  }

  class ApprovalBroker {
    const cfg: Config
    const store: GrantStore
    var recent: map<string, seq<Time>>
    var inFlight: map<string, nat>
    var deniedUntil: map<string, Time>
    /** The event loop's futures: None while unresolved. */
    var futures: seq<Option<bool>>

    ghost function Tables(): Broker
      reads this, store
    {
      Broker(store.expiry, recent, inFlight, deniedUntil, futures)
    }

    constructor (cfg: Config)
      ensures Tables() == EMPTY && this.cfg == cfg && fresh(store)
    {
      this.cfg := cfg;
      store := new GrantStore();
      recent, inFlight, deniedUntil, futures := map[], map[], map[], [];
    }

    method InDenyCooldown(key: string, now: Time) returns (cooling: bool)
      modifies this
      ensures cooling == Live(old(deniedUntil), key, now)
      ensures Tables() == old(Tables()).(deniedUntil := AfterRead(old(deniedUntil), key, now))
    {
      if key !in deniedUntil { return false; }
      if now >= deniedUntil[key] {
        deniedUntil := deniedUntil - {key};
        return false;
      }
      return true;
    }

    method RateLimited(kind: string, now: Time) returns (limited: bool)
      modifies this
      ensures var kept := DropOlder(Recent(old(Tables()), kind), now - cfg.For(kind).window);
        && limited == (|kept| >= cfg.For(kind).rateLimit)
        && Tables() == old(Tables()).(recent := old(recent)[kind := kept])
    {
      var policy := cfg.For(kind);
      var window := if kind in recent then recent[kind] else [];
      var cutoff := now - policy.window;
      while window != [] && window[0] < cutoff
        invariant DropOlder(window, cutoff) == DropOlder(Recent(old(Tables()), kind), cutoff)
        decreases |window|
      {
        window := window[1..];
      }
      recent := recent[kind := window];
      limited := |window| >= policy.rateLimit;
    }

    /** `check` up to its first await. A Joined caller then awaits the future, an
        Asking caller the gate. */
    method Check(req: Request, t: Readings) returns (verdict: Verdict)
      modifies this, store
      ensures (Tables(), verdict) == CheckStep(cfg, old(Tables()), req, t)
    {
      var standing := store.Allows(req.Key(), t.store);
      if standing { return Allowed; }
      if Refuses(cfg.For(req.kind), req.subject) { return Refused(NeverAsk); }
      var cooling := InDenyCooldown(req.Key(), t.cooldown);
      if cooling { return Refused(Cooldown); }
      var limited := RateLimited(req.kind, t.rate);
      if limited {
        var _ := store.Active(t.ask);
        return Refused(RateLimit);
      }
      verdict := AskOnce(req, t.ask);
    }

    method AskOnce(req: Request, now: Time) returns (verdict: Verdict)
      modifies this
      ensures req.Key() in old(inFlight) ==>
        verdict == Joined(old(inFlight)[req.Key()]) && Tables() == old(Tables())
      ensures req.Key() !in old(inFlight) ==>
        && verdict == Asking(|old(futures)|)
        && Tables() == old(Tables()).(
             inFlight := old(inFlight)[req.Key() := |old(futures)|],
             futures := old(futures) + [None],
             recent := old(recent)[req.kind := Recent(old(Tables()), req.kind) + [now]])
    {
      if req.Key() in inFlight { return Joined(inFlight[req.Key()]); }
      var future := |futures|;
      futures := futures + [None];
      inFlight := inFlight[req.Key() := future];
      var asked := if req.kind in recent then recent[req.kind] else [];
      recent := recent[req.kind := asked + [now]];
      return Asking(future);
    }

    /** From the end of the gate call to the end of `_ask_once`. */
    method Settle(req: Request, future: nat, outcome: Outcome, now: Time) returns (granted: bool)
      requires future < |futures|
      modifies this, store
      ensures Tables() == SettleStep(cfg, old(Tables()), req, future, outcome, now)
      ensures granted == outcome.Granted?
      ensures store.expiry
        == if outcome.Granted? then old(store.expiry)[req.Key() := now + req.ttl] else old(store.expiry)
      ensures outcome.Denied? ==> deniedUntil == old(deniedUntil)[req.Key() := now + cfg.fallback.denyCooldown]
      ensures !outcome.Denied? ==> deniedUntil == old(deniedUntil)
      ensures futures[future] == (if old(futures)[future].Some? then old(futures)[future] else Some(outcome.Granted?))
    {
      granted := false;
      match outcome {
        case TimedOut =>
        case Raised =>
        case Cancelled =>
        case Denied => deniedUntil := deniedUntil[req.Key() := now + cfg.fallback.denyCooldown];
        case Granted =>
          store.Grant(req.Key(), req.ttl, now);
          granted := true;
      }
      inFlight := inFlight - {req.Key()};
      if futures[future] == None { futures := futures[future := Some(granted)]; }
    }
  }
}
