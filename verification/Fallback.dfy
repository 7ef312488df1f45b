/** Account profiles, and switching between the accounts of a pool within a turn. */
module Fallback {
  import opened Options

  type Name = string

  /** A named account; an empty mode or an absent model leaves the profile's own. */
  datatype Account = Account(name: Name, backend: string, mode: string, model: Option<string>)

  /** What a conversation may pin. */
  datatype Pins = Pins(model: Option<string>, effort: Option<string>)

  const NO_PINS := Pins(None, None)

  datatype Profile = Profile(
    backend: string,
    mode: string,
    model: string,
    effort: string,
    account: Option<Name>,
    pool: seq<Name>,
    base: Option<(string, string)>,
    overrides: Pins)

  datatype Result<T> = Ok(value: T) | Err(error: Error)

  datatype Error =
    | WrongBackend
    | UnknownAccount
    | OutsidePool
    | DeadlineExpired
    | OtherBackendExhausted
    | ProgressIncomplete
    | AllExhausted(tried: seq<Name>)
    | Failed

  // --- the overlays ---

  /** The mode and model an account is laid over: those from before any account. */
  function BaseOf(p: Profile): (string, string) { if p.base.Some? then p.base.value else (p.mode, p.model) }

  function Pinned(p: Profile, pins: Pins): Profile {
    p.(model := if pins.model.Some? then pins.model.value else p.model,
       effort := if pins.effort.Some? then pins.effort.value else p.effort)
  }

  function ModeOver(base: (string, string), a: Account): string { if a.mode != "" then a.mode else base.0 }

  /** The model: the account's, or the base's unless one of the two modes is ollama
      and the other is not; then the backend's configured one. */
  function ModelOver(base: (string, string), a: Account, configured: string): string {
    if a.model.Some? then a.model.value
    else if (ModeOver(base, a) == "ollama") != (base.0 == "ollama") then configured
    else base.1
  }

  function ApplyProfile(p: Profile, a: Account, configured: string): Result<Profile> {
    if a.backend != p.backend then Err(WrongBackend)
    else
      var base := BaseOf(p);
      Ok(Pinned(p.(account := Some(a.name), mode := ModeOver(base, a), model := ModelOver(base, a, configured),
                   base := Some(base)), p.overrides))
  }

  function ApplyOverride(p: Profile, o: Pins): Profile { if o == NO_PINS then p else Pinned(p, o).(overrides := o) }

  /** The profile a conversation has with account `a` and pins `o`. */
  function Layered(p: Profile, a: Account, o: Pins, configured: string): Profile
    requires a.backend == p.backend
  {
    ApplyOverride(ApplyProfile(p, a, configured).value, o)
  }

  /** Field by field: the newest pin that is set wins, then what the account brings, then
      what there was before any account. The base's model does not count once the mode
      changes to or from ollama; then it is the one the backend is configured with. */
  lemma LayeredMeaning(p: Profile, a: Account, o: Pins, configured: string)
    requires a.backend == p.backend
    ensures var q := Layered(p, a, o, configured);
      var mode := if p.base.Some? then p.base.value.0 else p.mode;
      var model := if p.base.Some? then p.base.value.1 else p.model;
      && q.backend == p.backend && q.pool == p.pool && q.account == Some(a.name) && q.base == Some((mode, model))
      && q.mode == (if a.mode == "" then mode else a.mode)
      && (o.model.Some? ==> q.model == o.model.value)
      && (o.model.None? && p.overrides.model.Some? ==> q.model == p.overrides.model.value)
      && (o.model.None? && p.overrides.model.None? ==>
            && (a.model.Some? ==> q.model == a.model.value)
            && (a.model.None? ==>
                  q.model == if (q.mode == "ollama" && mode != "ollama") || (q.mode != "ollama" && mode == "ollama")
                             then configured else model))
      && q.effort == (if o.effort.Some? then o.effort.value
                      else if p.overrides.effort.Some? then p.overrides.effort.value else p.effort)
      && q.overrides == (if o.model.None? && o.effort.None? then p.overrides else o)
  {
  }

  /** Switching from account `a` to `b` gives the profile the conversation would have had
      with `b` from the start, and the account pool is what it was. Pins set before the
      first account matter only in one case: the switch forgets a pinned model exactly
      when newer pins without a model replaced it, and `b` would not bring the same. */
  lemma SwitchingIsChoosingFirst(p: Profile, a: Account, b: Account, o: Pins, configured: string)
    requires a.backend == p.backend && b.backend == p.backend
    ensures var switched := ApplyProfile(Layered(p, a, o, configured), b, configured);
      && switched.Ok? && switched.value.pool == p.pool
      && (switched.value == Layered(p, b, o, configured)
          <==> !(&& o != NO_PINS && o.model.None? && p.overrides.model.Some?
                 && p.overrides.model.value != ModelOver(BaseOf(p), b, configured)))
  {
    var one := ApplyProfile(p, a, configured).value;
    var two := ApplyOverride(one, o);
    assert BaseOf(two) == BaseOf(p);
  }

  /** In particular for a profile without pins of its own. */
  lemma SwitchingWithoutPins(p: Profile, a: Account, b: Account, o: Pins, configured: string)
    requires a.backend == p.backend && b.backend == p.backend && p.overrides == NO_PINS
    ensures ApplyProfile(Layered(p, a, o, configured), b, configured) == Ok(Layered(p, b, o, configured))
  {
    SwitchingIsChoosingFirst(p, a, b, o, configured);
  }

  // --- the rotation ---

  /** A remembered choice, with the pool it was made in. */
  datatype Choice = Choice(account: Option<Name>, pool: seq<Name>)

  function IndexOf(pool: seq<Name>, name: Name): (i: nat)
    requires name in pool
    ensures i < |pool| && pool[i] == name
  {
    if pool[0] == name then 0 else 1 + IndexOf(pool[1..], name)
  }

  function Selected(p: Profile, saved: Option<Choice>): Option<Name> {
    if saved.Some? && saved.value.pool == p.pool && saved.value.account.Some? && saved.value.account.value in p.pool
    then saved.value.account else p.account
  }

  function Candidates(p: Profile, saved: Option<Choice>): Result<seq<Name>> {
    var selected := Selected(p, saved);
    if selected.None? || selected.value !in p.pool then Err(OutsidePool)
    else
      var start := IndexOf(p.pool, selected.value);
      Ok(p.pool[start..] + p.pool[..start])
  }

  predicate Distinct(names: seq<Name>) { forall i, j | 0 <= i < j < |names| :: names[i] != names[j] }

  /** A remembered account counts exactly while the pool is the one it was chosen from;
      until then the profile's own does. */
  lemma SelectedMeaning(p: Profile, account: Name, pool: seq<Name>)
    ensures Selected(p, Some(Choice(Some(account), pool)))
      == if pool == p.pool && account in p.pool then Some(account) else p.account
    ensures Selected(p, Some(Choice(None, pool))) == p.account && Selected(p, None) == p.account
  {
  }

  /** The candidates are the pool turned so that the selected account comes first. */
  lemma CandidatesRotate(p: Profile, saved: Option<Choice>)
    requires Candidates(p, saved).Ok? && Distinct(p.pool)
    ensures var names := Candidates(p, saved).value;
      && |names| == |p.pool| && Distinct(names) && Some(names[0]) == Selected(p, saved)
      && (forall n :: n in names <==> n in p.pool)
      && exists k: nat :: k < |p.pool| && names == p.pool[k..] + p.pool[..k]
  {
    var k := IndexOf(p.pool, Selected(p, saved).value);
    var names := Candidates(p, saved).value;
    assert names == p.pool[k..] + p.pool[..k];
    assert p.pool == p.pool[..k] + p.pool[k..];
    forall i, j | 0 <= i < j < |names| ensures names[i] != names[j] {
      assert names[i] == p.pool[Turned(p.pool, k, i)] && names[j] == p.pool[Turned(p.pool, k, j)];
    }
  }

  function Turned(pool: seq<Name>, k: nat, i: nat): nat
    requires k < |pool| && i < |pool|
  {
    if i + k < |pool| then i + k else i + k - |pool|
  }

  // --- one turn ---

  datatype Prompt = Original | Continue

  datatype Attempt = Attempt(name: Name, profile: Profile, prompt: Prompt)

  /** How an attempt ends; `expired` tells whether the deadline had passed before it. */
  datatype Outcome =
    | Answered
    | Exhausted(backend: string, toolsStarted: bool, resumeReady: bool)
    | Failing

  datatype Trial = Trial(expired: bool, outcome: Outcome)

  datatype Turn = Turn(attempts: seq<Attempt>, result: Result<Name>)

  /** An attempt after which the next account is tried. */
  predicate MovesOn(p: Profile, outcome: Outcome) {
    outcome.Exhausted? && outcome.backend == p.backend && (outcome.toolsStarted ==> outcome.resumeReady)
  }

  function StopError(p: Profile, outcome: Outcome): Error
    requires !outcome.Answered? && !MovesOn(p, outcome)
  {
    if outcome.Failing? then Failed
    else if outcome.backend != p.backend then OtherBackendExhausted
    else ProgressIncomplete
  }

  predicate StartedTools(outcome: Outcome) { outcome.Exhausted? && outcome.toolsStarted }

  predicate StartedBefore(trials: seq<Trial>, i: nat)
    requires i <= |trials|
  {
    exists k :: 0 <= k < i && StartedTools(trials[k].outcome)
  }

  lemma StartedMore(trials: seq<Trial>, i: nat)
    requires i < |trials|
    ensures StartedBefore(trials, i + 1) <==> StartedBefore(trials, i) || StartedTools(trials[i].outcome)
  {
  }

  /** One attempt: the account in its place in the rotation, laid over the turn's profile,
      and with the continue prompt exactly when an earlier attempt had started tools. */
  ghost predicate AttemptOk(p: Profile, names: seq<Name>, accounts: map<Name, Account>, configured: string,
                            trials: seq<Trial>, i: nat, attempt: Attempt)
    requires i < |names| && i < |trials|
  {
    && attempt.name == names[i] && names[i] in accounts && !trials[i].expired
    && ApplyProfile(p, accounts[names[i]], configured) == Ok(attempt.profile)
    && (attempt.prompt.Continue? <==> StartedBefore(trials, i))
  }

  ghost predicate AttemptsOk(p: Profile, names: seq<Name>, accounts: map<Name, Account>, configured: string,
                             trials: seq<Trial>, attempts: seq<Attempt>) {
    && |attempts| <= |names| && |attempts| <= |trials|
    && (forall i | 0 <= i < |attempts| :: AttemptOk(p, names, accounts, configured, trials, i, attempts[i]))
    && (forall i | 0 <= i < |attempts| - 1 :: MovesOn(p, trials[i].outcome))
  }

  /** How a turn may end after its attempts. */
  ghost predicate EndsWith(p: Profile, names: seq<Name>, accounts: map<Name, Account>, trials: seq<Trial>, n: nat,
                           result: Result<Name>)
    requires n <= |names| <= |trials|
  {
    match result
    case Ok(name) => n > 0 && name == names[n - 1] && trials[n - 1].outcome.Answered?
    case Err(error) =>
      if n > 0 && !MovesOn(p, trials[n - 1].outcome) then
        !trials[n - 1].outcome.Answered? && error == StopError(p, trials[n - 1].outcome)
      else if n == |names| then error == AllExhausted(names)
      else if trials[n].expired then error == DeadlineExpired
      else names[n] !in accounts && error == UnknownAccount
  }

  /** What one turn did: attempts that each moved on to the next, up to the last one,
      which decides; all exhausted only after every account of the pool. */
  ghost predicate TurnOk(p: Profile, saved: Option<Choice>, accounts: map<Name, Account>, configured: string,
                         trials: seq<Trial>, turn: Turn) {
    if p.pool == [] then |trials| > 0 && turn == Alone(p, trials[0].outcome)
    else PoolTurnOk(p, saved, accounts, configured, trials, turn)
  }

  const NO_NAME: Name := ""

  /** A profile without a pool is tried once, as it is. */
  function Alone(p: Profile, outcome: Outcome): Turn {
    Turn([Attempt(NO_NAME, p, Original)], if outcome.Answered? then Ok(NO_NAME) else Err(Failed))
  }

  ghost predicate PoolTurnOk(p: Profile, saved: Option<Choice>, accounts: map<Name, Account>, configured: string,
                             trials: seq<Trial>, turn: Turn) {
    match Candidates(p, saved)
    case Err(error) => turn == Turn([], Err(error))
    case Ok(names) =>
      && |names| <= |trials|
      && AttemptsOk(p, names, accounts, configured, trials, turn.attempts)
      && EndsWith(p, names, accounts, trials, |turn.attempts|, turn.result)
  }

  /** All attempts so far moved on, and the prompt for the next one is decided. */
  ghost predicate Trying(p: Profile, names: seq<Name>, accounts: map<Name, Account>, configured: string,
                         trials: seq<Trial>, attempts: seq<Attempt>, prompt: Prompt) {
    && AttemptsOk(p, names, accounts, configured, trials, attempts)
    && (|attempts| > 0 ==> MovesOn(p, trials[|attempts| - 1].outcome))
    && (prompt.Continue? <==> StartedBefore(trials, |attempts|))
  }

  lemma TryNext(p: Profile, names: seq<Name>, accounts: map<Name, Account>, configured: string, trials: seq<Trial>,
                attempts: seq<Attempt>, prompt: Prompt, attempt: Attempt)
    requires Trying(p, names, accounts, configured, trials, attempts, prompt)
    requires |attempts| < |names| && |attempts| < |trials| && attempt.prompt == prompt
    requires AttemptOk(p, names, accounts, configured, trials, |attempts|, attempt)
    ensures AttemptsOk(p, names, accounts, configured, trials, attempts + [attempt])
    ensures MovesOn(p, trials[|attempts|].outcome) ==>
      Trying(p, names, accounts, configured, trials, attempts + [attempt],
             if StartedTools(trials[|attempts|].outcome) then Continue else prompt)
  {
    var more := attempts + [attempt];
    forall i | 0 <= i < |more| ensures AttemptOk(p, names, accounts, configured, trials, i, more[i]) {
      if i < |attempts| { assert more[i] == attempts[i]; }
    }
    StartedMore(trials, |attempts|);
  }

  class AccountFallback {
    var saved: Option<Choice>

    constructor (saved: Option<Choice>)
      ensures this.saved == saved
    {
      this.saved := saved;
    }

    /** `run`. `trials` says how each attempt goes. */
    method Run(p: Profile, accounts: map<Name, Account>, configured: string, trials: seq<Trial>) returns (turn: Turn)
      requires |trials| > 0 && |trials| >= |p.pool| && Distinct(p.pool)
      requires forall n | n in accounts :: accounts[n].name == n && accounts[n].backend == p.backend
      modifies `saved
      ensures TurnOk(p, old(saved), accounts, configured, trials, turn)
      ensures saved == Remembered(p, old(saved), turn)
      ensures p.pool == [] ==> && turn.attempts == [Attempt(NO_NAME, p, Original)]
                               && (turn.result.Ok? <==> trials[0].outcome.Answered?)
      ensures saved != old(saved) ==> && turn.result.Ok? && |turn.attempts| > 1
                                      && saved == Some(Choice(Some(turn.result.value), p.pool))
    {
      if p.pool == [] { return Alone(p, trials[0].outcome); }
      turn := RunPool(p, accounts, configured, trials);
    }

    /** The loop over the candidates. */
    method RunPool(p: Profile, accounts: map<Name, Account>, configured: string, trials: seq<Trial>)
      returns (turn: Turn)
      requires |trials| >= |p.pool| && Distinct(p.pool)
      requires forall n | n in accounts :: accounts[n].name == n && accounts[n].backend == p.backend
      modifies `saved
      ensures PoolTurnOk(p, old(saved), accounts, configured, trials, turn)
      ensures saved == Remembered(p, old(saved), turn)
    {
      var candidates := Candidates(p, saved);
      if candidates.Err? { return Turn([], Err(candidates.error)); }
      var names := candidates.value;
      CandidatesRotate(p, saved);
      var prompt := Original;
      var attempts: seq<Attempt> := [];
      var i := 0;
      while i < |names|
        invariant 0 <= i <= |names| && |attempts| == i && saved == old(saved)
        invariant Trying(p, names, accounts, configured, trials, attempts, prompt)
      {
        var name := names[i];
        if trials[i].expired { return Turn(attempts, Err(DeadlineExpired)); }
        if name !in accounts { return Turn(attempts, Err(UnknownAccount)); }
        var attempt := Attempt(name, ApplyProfile(p, accounts[name], configured).value, prompt);
        TryNext(p, names, accounts, configured, trials, attempts, prompt, attempt);
        attempts := attempts + [attempt];
        match trials[i].outcome
        case Answered =>
          if name != names[0] { saved := Some(Choice(Some(name), p.pool)); }
          return Turn(attempts, Ok(name));
        case Failing =>
          return Turn(attempts, Err(Failed));
        case Exhausted(backend, toolsStarted, resumeReady) =>
          if backend != p.backend { return Turn(attempts, Err(OtherBackendExhausted)); }
          if toolsStarted && !resumeReady { return Turn(attempts, Err(ProgressIncomplete)); }
          if toolsStarted { prompt := Continue; }
          i := i + 1;
      }
      return Turn(attempts, Err(AllExhausted(names)));
    }
  }

  /** A win after switching is remembered; nothing else is. */
  function Remembered(p: Profile, saved: Option<Choice>, turn: Turn): Option<Choice> {
    if turn.result.Ok? && |turn.attempts| > 1 then Some(Choice(Some(turn.result.value), p.pool)) else saved
  }

  /** When a turn goes on to the next account, and how it ends: it goes on exactly after an
      account of its own backend is exhausted, unless tools had started and the progress
      cannot be resumed; and it asks to continue once tools had started. */
  lemma RetriesAndErrors(p: Profile, saved: Option<Choice>, accounts: map<Name, Account>, configured: string,
                         trials: seq<Trial>, turn: Turn)
    requires TurnOk(p, saved, accounts, configured, trials, turn) && p.pool != [] && Candidates(p, saved).Ok?
    ensures var names, n := Candidates(p, saved).value, |turn.attempts|;
      && n <= |names| <= |trials|
      && (forall i | 0 <= i < n - 1 :: GoesOn(p, trials[i].outcome))
      && (forall i | 0 <= i < n ::
            turn.attempts[i].prompt.Continue? <==>
            exists k :: 0 <= k < i && trials[k].outcome.Exhausted? && trials[k].outcome.toolsStarted)
      && (n > 0 && !GoesOn(p, trials[n - 1].outcome) ==>
            turn.result == match trials[n - 1].outcome
                           case Answered => Ok(names[n - 1])
                           case Failing => Err(Failed)
                           case Exhausted(backend, _, _) =>
                             Err(if backend != p.backend then OtherBackendExhausted else ProgressIncomplete))
      && (n == 0 || GoesOn(p, trials[n - 1].outcome) ==>
            if n == |names| then turn.result == Err(AllExhausted(names))
            else if trials[n].expired then turn.result == Err(DeadlineExpired)
            else names[n] !in accounts && turn.result == Err(UnknownAccount))
  {
    var n := |turn.attempts|;
    forall i | 0 <= i < n - 1 ensures GoesOn(p, trials[i].outcome) { assert MovesOn(p, trials[i].outcome); }
    forall i | 0 <= i < n ensures
      turn.attempts[i].prompt.Continue? <==>
      exists k :: 0 <= k < i && trials[k].outcome.Exhausted? && trials[k].outcome.toolsStarted
    {
      assert AttemptOk(p, Candidates(p, saved).value, accounts, configured, trials, i, turn.attempts[i]);
      if StartedBefore(trials, i) { var k :| 0 <= k < i && StartedTools(trials[k].outcome); }
      if k :| 0 <= k < i && trials[k].outcome.Exhausted? && trials[k].outcome.toolsStarted {
        assert StartedTools(trials[k].outcome);
      }
    }
  }

  predicate GoesOn(p: Profile, outcome: Outcome) {
    match outcome
    case Exhausted(backend, toolsStarted, resumeReady) => backend == p.backend && (!toolsStarted || resumeReady)
    case _ => false
  }

  /** No account is tried twice in a turn. */
  lemma EachAccountOnce(p: Profile, saved: Option<Choice>, accounts: map<Name, Account>, configured: string,
                        trials: seq<Trial>, turn: Turn, i: nat, j: nat)
    requires TurnOk(p, saved, accounts, configured, trials, turn) && Distinct(p.pool) && p.pool != []
    requires i < j < |turn.attempts|
    ensures turn.attempts[i].name != turn.attempts[j].name
    ensures turn.attempts[i].name in p.pool
  {
    CandidatesRotate(p, saved);
    var names := Candidates(p, saved).value;
    assert AttemptOk(p, names, accounts, configured, trials, i, turn.attempts[i]);
    assert AttemptOk(p, names, accounts, configured, trials, j, turn.attempts[j]);
  }

  /** Every attempt of a turn runs on the profile the conversation would have had with
      that account from the start: for a profile layered from one without pins, the
      account of the attempt takes the first account's place under the same pins. */
  lemma AttemptsAreChosenFirst(p0: Profile, a: Account, o: Pins, saved: Option<Choice>, accounts: map<Name, Account>,
                               configured: string, trials: seq<Trial>, turn: Turn, i: nat)
    requires a.backend == p0.backend && p0.overrides == NO_PINS && p0.pool != []
    requires TurnOk(Layered(p0, a, o, configured), saved, accounts, configured, trials, turn)
    requires i < |turn.attempts|
    ensures var attempt := turn.attempts[i];
      && attempt.name in accounts && accounts[attempt.name].backend == p0.backend
      && attempt.profile == Layered(p0, accounts[attempt.name], o, configured)
  {
    var p := Layered(p0, a, o, configured);
    var names := Candidates(p, saved).value;
    assert AttemptOk(p, names, accounts, configured, trials, i, turn.attempts[i]);
    SwitchingWithoutPins(p0, a, accounts[turn.attempts[i].name], o, configured);
  }

  /** The account that won is where the next turn of the conversation starts. */
  lemma WinnerStartsTheNextTurn(p: Profile, saved: Option<Choice>, accounts: map<Name, Account>, configured: string,
                                trials: seq<Trial>, turn: Turn)
    requires TurnOk(p, saved, accounts, configured, trials, turn) && Distinct(p.pool) && p.pool != []
    requires turn.result.Ok?
    ensures var next := Candidates(p, Remembered(p, saved, turn));
      next.Ok? && |next.value| > 0 && next.value[0] == turn.result.value
  {
    CandidatesRotate(p, saved);
    assert turn.result.value in p.pool;
    CandidatesRotate(p, Remembered(p, saved, turn));
  }
}
