/** Where a true answer comes from, and which requests can ever get one. */
module ApprovalAnswers {
  import opened Options
  import opened Approvals
  import opened ApprovalRuns

  // --- every true answer is backed by a grant of its key ---

  /** The caller's own gate call is granted. */
  predicate OwnGrant(w: World, ev: Event, c: Caller, req: Request) {
    && ev.GateEnds? && Enabled(w, ev) && ev.caller == c && ev.outcome.Granted?
    && w.asks[w.askers[c]].req == req
  }

  /** The caller joined a gate call about its key, and that one was granted. */
  ghost predicate JoinedGrant(w: World, ev: Event, c: Caller, req: Request) {
    && ev == JoinEnds(c) && Enabled(w, ev) && w.joiners[c].req == req
    && w.b.futures[w.joiners[c].future] == Some(true)
    && exists i: nat :: EndsAt(w.log, i, w.joiners[c].future, req.Key()) && w.log[i].outcome.Granted?
  }

  /** The last word on its key is a grant whose lifetime is not over. */
  ghost predicate StoredGrant(w: World, ev: Event, c: Caller, req: Request) {
    && ev.Check? && ev.caller == c && ev.req == req && Enabled(w, ev)
    && exists i: nat :: LastWord(w.log, i, req.Key()) && ev.t.store < w.log[i].at + w.log[i].ttl
  }

  ghost predicate Backed(w: World, ev: Event, c: Caller, req: Request) {
    OwnGrant(w, ev, c, req) || JoinedGrant(w, ev, c, req) || StoredGrant(w, ev, c, req)
  }

  predicate Returns(cfg: Config, w: World, ev: Event, c: Caller, req: Request, answer: bool) {
    var log := Next(cfg, w, ev).log;
    |w.log| < |log| && Returned(c, req, answer) in log[|w.log|..]
  }

  lemma TailOfTwo<T>(log: seq<T>, a: T, b: T)
    ensures (log + [a])[|log|..] == [a] && (log + [a] + [b])[|log|..] == [a, b]
    ensures (log + [a])[..|log|] == log && (log + [a] + [b])[..|log|] == log
  {
  }

  lemma CheckReturns(cfg: Config, w: World, c: Caller, req: Request, t: Readings, d: Caller, other: Request)
    requires Enabled(w, Check(c, req, t))
    ensures Returns(cfg, w, Check(c, req, t), d, other, true)
      <==> d == c && other == req && CheckStep(cfg, w.b, req, t).1.Allowed?
  {
    var verdict := CheckStep(cfg, w.b, req, t).1;
    TailOfTwo(w.log, Returned(c, req, verdict.Allowed?), Asked(req.kind, req.Key(), t.ask));
    TailOfTwo(w.log, Asked(req.kind, req.Key(), t.ask), Returned(c, req, true));
  }

  lemma GateReturns(cfg: Config, w: World, c: Caller, outcome: Outcome, at: Time, d: Caller, other: Request)
    requires Enabled(w, GateEnds(c, outcome, at))
    ensures Returns(cfg, w, GateEnds(c, outcome, at), d, other, true)
      <==> OwnGrant(w, GateEnds(c, outcome, at), d, other)
  {
    var f := w.askers[c];
    var req := w.asks[f].req;
    TailOfTwo(w.log, Answered(f, req.Key(), outcome, req.ttl, at), Returned(c, req, outcome.Granted?));
  }

  lemma JoinReturns(cfg: Config, w: World, c: Caller, d: Caller, other: Request)
    requires FlightInv(w) && AnswersInv(w) && Enabled(w, JoinEnds(c))
    ensures Returns(cfg, w, JoinEnds(c), d, other, true) <==> JoinedGrant(w, JoinEnds(c), d, other)
  {
    var wait := w.joiners[c];
    var e := Returned(c, wait.req, w.b.futures[wait.future].value);
    TailOfTwo(w.log, e, e);
  }

  lemma QuietReturns(cfg: Config, w: World, ev: Event, d: Caller, other: Request)
    requires ev.JoinLeaves? || ev.Revoke? || ev.Peek?
    ensures !Returns(cfg, w, ev, d, other, true)
  {
    if ev.Revoke? { TailOfTwo(w.log, Revoked(ev.key), Revoked(ev.key)); }
  }

  /** An event answers a caller True if and only if one of these holds: the caller's own
      gate call was just granted, the one it joined was, or a grant of its key stands. */
  lemma TrueExactlyWhenBacked(cfg: Config, start: Time, evs: seq<Event>, ev: Event, c: Caller, req: Request)
    requires Enabled(Exec(cfg, start, evs), ev)
    ensures var w := Exec(cfg, start, evs); Returns(cfg, w, ev, c, req, true) <==> Backed(w, ev, c, req)
  {
    var w := Exec(cfg, start, evs);
    FlightHolds(cfg, start, evs);
    AnswersHold(cfg, start, evs);
    match ev
    case Check(d, other, t) =>
      CheckReturns(cfg, w, d, other, t, c, req);
      AllowedExactlyWhileGranted(cfg, start, evs, other, t);
    case GateEnds(d, outcome, at) => GateReturns(cfg, w, d, outcome, at, c, req);
    case JoinEnds(d) => JoinReturns(cfg, w, d, c, req);
    case JoinLeaves(_) => QuietReturns(cfg, w, ev, c, req);
    case Revoke(_) => QuietReturns(cfg, w, ev, c, req);
    case Peek(_, _) => QuietReturns(cfg, w, ev, c, req);
  }

  lemma LogGrows(cfg: Config, w: World, ev: Event)
    ensures var log := Next(cfg, w, ev).log; |w.log| <= |log| && log[..|w.log|] == w.log
  {
  }

  /** Every true answer in the history of any run was backed when it was given. */
  lemma {:induction false} TrueIsEarned(cfg: Config, start: Time, evs: seq<Event>, n: nat) returns (i: nat)
    requires var log := Exec(cfg, start, evs).log; n < |log| && log[n].Returned? && log[n].answer
    ensures var entry := Exec(cfg, start, evs).log[n];
      i < |evs| && Enabled(Exec(cfg, start, evs[..i]), evs[i])
      && Backed(Exec(cfg, start, evs[..i]), evs[i], entry.caller, entry.req)
  {
    if evs != [] {
      var past, ev := evs[..|evs| - 1], evs[|evs| - 1];
      var was, log := Exec(cfg, start, past).log, Exec(cfg, start, evs).log;
      LogGrows(cfg, Exec(cfg, start, past), ev);
      if n < |was| {
        assert log[n] == log[..|was|][n];
        i := TrueIsEarned(cfg, start, past, n);
        assert past[..i] == evs[..i];
      } else {
        assert log[n] == log[|was|..][n - |was|];
        TrueExactlyWhenBacked(cfg, start, past, ev, log[n].caller, log[n].req);
        i := |evs| - 1;
      }
    }
  }

  // --- which requests can ever be granted ---

  /** Whether the policy of its kind ever lets this request reach the operator. */
  predicate Opens(cfg: Config, req: Request) {
    !Refuses(cfg.For(req.kind), req.subject) && cfg.For(req.kind).rateLimit > 0
  }

  /** Only such requests are asked, and every answer is to one of them. */
  ghost predicate OpenOk(cfg: Config, asks: seq<Ask>, log: seq<Entry>) {
    && (forall f: nat | f < |asks| :: Opens(cfg, asks[f].req))
    && (forall n: nat | n < |log| && log[n].Answered? ::
          log[n].future < |asks| && asks[log[n].future].req.Key() == log[n].key)
  }

  ghost predicate OpenInv(cfg: Config, w: World) { OpenOk(cfg, w.asks, w.log) }

  lemma AskingIsOpen(cfg: Config, b: Broker, req: Request, t: Readings)
    requires CheckStep(cfg, b, req, t).1.Asking?
    ensures Opens(cfg, req)
  {
  }

  lemma OpenEntry(cfg: Config, asks: seq<Ask>, log: seq<Entry>, e: Entry)
    requires OpenOk(cfg, asks, log)
    requires e.Answered? ==> e.future < |asks| && asks[e.future].req.Key() == e.key
    ensures OpenOk(cfg, asks, log + [e])
  {
  }

  lemma OpenCheck(cfg: Config, w: World, c: Caller, req: Request, t: Readings)
    requires OpenInv(cfg, w)
    ensures OpenInv(cfg, AfterCheck(cfg, w, c, req, t))
  {
    var verdict := CheckStep(cfg, w.b, req, t).1;
    if verdict.Asking? {
      AskingIsOpen(cfg, w.b, req, t);
      OpenEntry(cfg, w.asks + [Ask(c, req)], w.log, Asked(req.kind, req.Key(), t.ask));
    } else if !verdict.Joined? {
      OpenEntry(cfg, w.asks, w.log, Returned(c, req, verdict.Allowed?));
    }
  }

  lemma OpenGate(cfg: Config, w: World, c: Caller, outcome: Outcome, at: Time)
    requires OpenInv(cfg, w) && Enabled(w, GateEnds(c, outcome, at))
    ensures OpenInv(cfg, AfterGate(cfg, w, c, outcome, at))
  {
    var f := w.askers[c];
    var req := w.asks[f].req;
    var e := Answered(f, req.Key(), outcome, req.ttl, at);
    OpenEntry(cfg, w.asks, w.log, e);
    OpenEntry(cfg, w.asks, w.log + [e], Returned(c, req, outcome.Granted?));
  }

  lemma OpenStep(cfg: Config, w: World, ev: Event)
    requires OpenInv(cfg, w)
    ensures OpenInv(cfg, Next(cfg, w, ev))
  {
    if Enabled(w, ev) {
      match ev
      case Check(c, req, t) => OpenCheck(cfg, w, c, req, t);
      case GateEnds(c, outcome, at) => OpenGate(cfg, w, c, outcome, at);
      case JoinEnds(c) =>
        OpenEntry(cfg, w.asks, w.log, Returned(c, w.joiners[c].req, w.b.futures[w.joiners[c].future].value));
      case Revoke(key) => OpenEntry(cfg, w.asks, w.log, Revoked(key));
      case JoinLeaves(_) =>
      case Peek(_, _) =>
    }
  }

  lemma {:induction false} OpenHolds(cfg: Config, start: Time, evs: seq<Event>)
    ensures OpenInv(cfg, Exec(cfg, start, evs))
  {
    if evs != [] {
      OpenHolds(cfg, start, evs[..|evs| - 1]);
      OpenStep(cfg, Exec(cfg, start, evs[..|evs| - 1]), evs[|evs| - 1]);
    }
  }

  /** A true answer rests on a question about its key that the policy let through. */
  lemma BackedByAQuestion(cfg: Config, start: Time, evs: seq<Event>, ev: Event, c: Caller, req: Request)
    returns (f: nat)
    requires Backed(Exec(cfg, start, evs), ev, c, req)
    ensures var w := Exec(cfg, start, evs);
      f < |w.asks| && w.asks[f].req.Key() == req.Key() && Opens(cfg, w.asks[f].req)
  {
    var w := Exec(cfg, start, evs);
    OpenHolds(cfg, start, evs);
    if OwnGrant(w, ev, c, req) {
      f := w.askers[c];
    } else if JoinedGrant(w, ev, c, req) {
      var i: nat :| EndsAt(w.log, i, w.joiners[c].future, req.Key()) && w.log[i].outcome.Granted?;
      f := w.log[i].future;
    } else {
      var i: nat :| LastWord(w.log, i, req.Key()) && ev.t.store < w.log[i].at + w.log[i].ttl;
      f := w.log[i].future;
    }
  }

  /** In some run this request is answered True. */
  ghost predicate EverTrue(cfg: Config, req: Request) {
    exists start: Time, evs: seq<Event>, n: nat ::
      n < |Exec(cfg, start, evs).log| && TrueAt(Exec(cfg, start, evs).log, n, req)
  }

  predicate TrueAt(log: seq<Entry>, n: nat, req: Request)
    requires n < |log|
  {
    log[n].Returned? && log[n].req == req && log[n].answer
  }

  const AT_ZERO := Readings(0, 0, 0, 0)

  lemma FirstAsks(cfg: Config, req: Request)
    requires Opens(cfg, req)
    ensures var w := Next(cfg, Start(0), Check(1, req, AT_ZERO));
      && w.askers == map[1 := 0] && w.asks == [Ask(1, req)] && |w.b.futures| == 1
      && w.used == {1} && w.now == 0
  {
    assert CheckStep(cfg, EMPTY, req, AT_ZERO).1 == Asking(0);
  }

  lemma ThenGranted(cfg: Config, w: World, req: Request)
    requires w.askers == map[1 := 0] && w.asks == [Ask(1, req)] && |w.b.futures| == 1
    requires w.used == {1} && w.now == 0
    ensures var w' := Next(cfg, w, GateEnds(1, Granted, 0));
      req.Key() in w'.b.expiry && w'.b.expiry[req.Key()] == req.ttl && w'.used == {1} && w'.now == 0
  {
  }

  lemma ThenAllowed(cfg: Config, w: World, req: Request)
    requires Live(w.b.expiry, req.Key(), 0) && w.used == {1} && w.now == 0
    ensures var log := Next(cfg, w, Check(2, req, AT_ZERO)).log;
      |log| == |w.log| + 1 && TrueAt(log, |w.log|, req)
  {
    assert CheckStep(cfg, w.b, req, AT_ZERO).1 == Allowed;
  }

  /** A grant of one request answers every request with the same key. */
  lemma OneGrantOpensTheKey(cfg: Config, open: Request, req: Request)
    requires Opens(cfg, open) && open.Key() == req.Key()
    ensures EverTrue(cfg, req)
  {
    var lasting := Request(open.kind, open.subject, 1);
    var e1, e2, e3 := Check(1, lasting, AT_ZERO), GateEnds(1, Granted, 0), Check(2, req, AT_ZERO);
    assert [e1][..0] == [] && [e1, e2][..1] == [e1] && [e1, e2, e3][..2] == [e1, e2];
    assert Exec(cfg, 0, []) == Start(0);
    var w1, w2, w3 := Exec(cfg, 0, [e1]), Exec(cfg, 0, [e1, e2]), Exec(cfg, 0, [e1, e2, e3]);
    assert w1 == Next(cfg, Start(0), e1);
    FirstAsks(cfg, lasting);
    assert w2 == Next(cfg, w1, e2);
    ThenGranted(cfg, w1, lasting);
    assert w3 == Next(cfg, w2, e3);
    ThenAllowed(cfg, w2, req);
    assert TrueAt(Exec(cfg, 0, [e1, e2, e3]).log, |w2.log|, req);
  }

  /** What a policy can promise: a request is answered True in no run if and only if
      every request with its key, however the key is split at its colons, is one whose
      kind's policy never asks about it, or whose kind's limit is not positive. */
  lemma NeverTrueExactlyWhenShut(cfg: Config, req: Request)
    ensures !EverTrue(cfg, req) <==> forall other: Request | other.Key() == req.Key() :: !Opens(cfg, other)
  {
    if EverTrue(cfg, req) {
      var start: Time, evs: seq<Event>, n: nat :|
        n < |Exec(cfg, start, evs).log| && TrueAt(Exec(cfg, start, evs).log, n, req);
      var i := TrueIsEarned(cfg, start, evs, n);
      var f := BackedByAQuestion(cfg, start, evs[..i], evs[i], Exec(cfg, start, evs).log[n].caller, req);
      assert Opens(cfg, Exec(cfg, start, evs[..i]).asks[f].req);
    }
    if other: Request :| other.Key() == req.Key() && Opens(cfg, other) { OneGrantOpensTheKey(cfg, other, req); }
  }

  // --- kinds without a colon ---

  predicate ColonFree(kind: string) { ':' !in kind }

  lemma KeysAreInjective(k1: string, s1: string, k2: string, s2: string)
    requires ColonFree(k1) && ColonFree(k2) && KeyOf(k1, s1) == KeyOf(k2, s2)
    ensures k1 == k2 && s1 == s2
  {
    var a, b := KeyOf(k1, s1), KeyOf(k2, s2);
    assert a[..|k1|] == k1 && b[..|k2|] == k2;
    assert a[|k1| + 1..] == s1 && b[|k2| + 1..] == s2;
    assert forall i | 0 <= i < |k1| :: a[i] != ':';
    assert forall i | 0 <= i < |k2| :: b[i] != ':';
    assert a[|k1|] == ':' && b[|k2|] == ':';
  }

  /** Every question of a run was some check's. */
  lemma {:induction false} QuestionsAreChecks(cfg: Config, start: Time, evs: seq<Event>, f: nat) returns (i: nat)
    requires f < |Exec(cfg, start, evs).asks|
    ensures i < |evs| && evs[i].Check? && evs[i].req == Exec(cfg, start, evs).asks[f].req
  {
    if evs != [] {
      var past, ev := evs[..|evs| - 1], evs[|evs| - 1];
      if f < |Exec(cfg, start, past).asks| {
        i := QuestionsAreChecks(cfg, start, past, f);
        AsksGrow(cfg, Exec(cfg, start, past), ev);
      } else {
        AsksGrow(cfg, Exec(cfg, start, past), ev);
        i := |evs| - 1;
      }
    }
  }

  lemma AsksGrow(cfg: Config, w: World, ev: Event)
    ensures var asks := Next(cfg, w, ev).asks;
      asks == w.asks || (ev.Check? && asks == w.asks + [Ask(ev.caller, ev.req)])
  {
  }

  /** In a run whose checks for this key all name kinds without a colon, as every caller
      in the code does, a request its policy never asks about is not granted, and
      nobody is asked about its key. */
  lemma NeverAskNeverGrants(cfg: Config, start: Time, evs: seq<Event>, req: Request)
    requires Refuses(cfg.For(req.kind), req.subject) && ColonFree(req.kind)
    requires forall i | 0 <= i < |evs| && evs[i].Check? && evs[i].req.Key() == req.Key() :: ColonFree(evs[i].req.kind)
    ensures var w := Exec(cfg, start, evs);
      && (forall f: nat | f < |w.asks| :: w.asks[f].req.Key() != req.Key())
      && (forall n: nat | n < |w.log| :: !TrueAt(w.log, n, req))
  {
    var w := Exec(cfg, start, evs);
    forall f: nat | f < |w.asks| ensures w.asks[f].req.Key() != req.Key() { NeverAsked(cfg, start, evs, req, f); }
    forall n: nat | n < |w.log| ensures !TrueAt(w.log, n, req) {
      if TrueAt(w.log, n, req) {
        var i := TrueIsEarned(cfg, start, evs, n);
        var f := BackedByAQuestion(cfg, start, evs[..i], evs[i], w.log[n].caller, req);
        NeverAsked(cfg, start, evs[..i], req, f);
        assert false;
      }
    }
  }

  lemma NeverAsked(cfg: Config, start: Time, evs: seq<Event>, req: Request, f: nat)
    requires Refuses(cfg.For(req.kind), req.subject) && ColonFree(req.kind)
    requires forall i | 0 <= i < |evs| && evs[i].Check? && evs[i].req.Key() == req.Key() :: ColonFree(evs[i].req.kind)
    requires f < |Exec(cfg, start, evs).asks|
    ensures Exec(cfg, start, evs).asks[f].req.Key() != req.Key()
  {
    var other := Exec(cfg, start, evs).asks[f].req;
    var i := QuestionsAreChecks(cfg, start, evs, f);
    OpenHolds(cfg, start, evs);
    if other.Key() == req.Key() {
      KeysAreInjective(other.kind, other.subject, req.kind, req.subject);
      assert false;
    }
  }

  /** Two requests of different kinds with one key, the second of which is never asked
      about. */
  const COLON_CONFIG := Config(Policy({}, 5, 60, 120), map["a" := Policy({"b:c"}, 5, 60, 120)])
  const OPEN_REQUEST := Request("a:b", "c", 100)
  const SHUT_REQUEST := Request("a", "b:c", 100)

  /** With a colon in a kind two requests can share a key, and a never-ask subject is
      then answered by the other one's grant. */
  lemma ColonKindsDefeatNeverAsk()
    ensures Refuses(COLON_CONFIG.For(SHUT_REQUEST.kind), SHUT_REQUEST.subject)
    ensures EverTrue(COLON_CONFIG, SHUT_REQUEST)
  {
    assert Matches("b:c", "b:c");
    assert OPEN_REQUEST.Key() == "a:b:c" == SHUT_REQUEST.Key();
    OneGrantOpensTheKey(COLON_CONFIG, OPEN_REQUEST, SHUT_REQUEST);
  }
}
