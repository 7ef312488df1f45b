/** Several processes refreshing one login file under a shared lock, each with a copy
    cached by the file's stat. */
module CodexAuth {
  import opened Options

  type Pid = nat
  type Token = nat

  /** An access token carries its own expiry, when it is readable. */
  datatype Access = Access(text: nat, expiry: Option<int>)

  /** The login file. `other` stands for every field that is not a token. */
  datatype Auth = Auth(idToken: nat, access: Access, refresh: Token, account: nat, last: Option<int>, other: nat)

  /** What the token endpoint answers; a missing field keeps the old one. */
  datatype Answer = Answer(idToken: Option<nat>, access: Option<Access>, refresh: Option<Token>)

  const REFRESH_AFTER := 7 * 24 * 3600
  const EXPIRY_MARGIN := 5 * 60

  predicate RefreshDue(auth: Auth, now: int) {
    || auth.last.None? || now - auth.last.value >= REFRESH_AFTER
    || auth.access.expiry.None? || auth.access.expiry.value - now <= EXPIRY_MARGIN
  }

  /** The headers a request carries. */
  function HeadersFrom(auth: Auth): (Access, nat) { (auth.access, auth.account) }

  /** Why a refresh is asked for: its age, or the endpoint refused these headers. */
  datatype Need = Age | Refused(sent: (Access, nat))

  predicate Needed(need: Need, auth: Auth, now: int) {
    match need
    case Age => RefreshDue(auth, now)
    case Refused(sent) => HeadersFrom(auth) == sent
  }

  function Updated(current: Auth, answer: Answer, now: int): Auth {
    current.(idToken := if answer.idToken.Some? then answer.idToken.value else current.idToken,
             access := if answer.access.Some? then answer.access.value else current.access,
             refresh := if answer.refresh.Some? then answer.refresh.value else current.refresh,
             last := Some(now))
  }

  /** Of a login and an answer to its refresh: what the answer gives is the answer's, all
      else the old login's, and the refresh is dated now. */
  predicate Took(a: Auth, current: Auth, answer: Answer, now: int) {
    && (match answer.idToken case Some(given) => a.idToken == given case None => a.idToken == current.idToken)
    && (match answer.access case Some(given) => a.access == given case None => a.access == current.access)
    && (match answer.refresh case Some(given) => a.refresh == given case None => a.refresh == current.refresh)
    && a.last == Some(now) && a.account == current.account && a.other == current.other
  }

  /** Refreshed less than seven days ago, and its access token is known to live for more
      than five minutes. */
  predicate StillGood(a: Auth, now: int) {
    && a.last.Some? && now < a.last.value + 604800
    && a.access.expiry.Some? && now + 300 < a.access.expiry.value
  }

  /** The file. `version` is its stat; the content is None while it does not parse. */
  datatype File = File(version: nat, content: Option<Auth>)

  type Cache = Option<(nat, Auth)>

  datatype Reading = Reading(cached: Cache, auth: Option<Auth>)

  /** Re-read only when the stat changed; a file in the middle of a rewrite answers
      with the last good copy, and with an error when there is none. */
  function Read(file: File, cached: Cache): Reading {
    if cached.Some? && cached.value.0 == file.version then Reading(cached, Some(cached.value.1))
    else if file.content.Some? then Reading(Some((file.version, file.content.value)), file.content)
    else if cached.Some? then Reading(cached, Some(cached.value.1))
    else Reading(None, None)
  }

  /** Out       not refreshing
      Posting   holds the lock, the refresh token is on its way
      Writing   the endpoint answered; Rewriting: the file is half written */
  datatype Phase = Out | Posting(current: Auth) | Writing(updated: Auth) | Rewriting(updated: Auth)

  datatype Proc = Proc(cached: Cache, failed: Option<Token>, phase: Phase)

  const FRESH := Proc(None, None, Out)

  datatype Post = Post(pid: Pid, token: Token)

  /** `at` is how many posts there were when the answer came. */
  datatype Answered = Answered(token: Token, at: nat)

  datatype World = World(
    file: File,
    lock: Option<Pid>,
    procs: map<Pid, Proc>,
    posts: seq<Post>,
    answers: seq<Answered>,
    seen: set<Token>)

  function Init(auth: Auth, pids: set<Pid>): World {
    World(File(0, Some(auth)), None, map p | p in pids :: FRESH, [], [], {auth.refresh})
  }

  datatype Event =
    | Enter(pid: Pid, need: Need, now: int)
    | Answers(pid: Pid, answer: Answer, now: int)
    | Rejects(pid: Pid)
    | Fails(pid: Pid)
    | BeginWrite(pid: Pid)
    | EndWrite(pid: Pid)
    | WriteFails(pid: Pid)
    | Peek(pid: Pid)
    | Crash(pid: Pid)
    | Outside(content: Option<Auth>)

  predicate Enabled(w: World, ev: Event) {
    match ev
    case Enter(p, _, _) => p in w.procs && w.lock.None? && w.procs[p].phase.Out?
    case Answers(p, _, _) => p in w.procs && w.procs[p].phase.Posting?
    case Rejects(p) => p in w.procs && w.procs[p].phase.Posting?
    case Fails(p) => p in w.procs && w.procs[p].phase.Posting?
    case BeginWrite(p) => p in w.procs && w.procs[p].phase.Writing?
    case EndWrite(p) => p in w.procs && w.procs[p].phase.Rewriting?
    case WriteFails(p) => p in w.procs && (w.procs[p].phase.Writing? || w.procs[p].phase.Rewriting?)
    case Peek(p) => p in w.procs
    case Crash(p) => p in w.procs
    case Outside(_) => true
  }

  function With(w: World, p: Pid, proc: Proc): World { w.(procs := w.procs[p := proc]) }

  function Unlocked(w: World, p: Pid): World { if w.lock == Some(p) then w.(lock := None) else w }

  /** The start of `_refresh_if`: lock, re-read, decide, post. */
  function EnterStep(w: World, p: Pid, need: Need, now: int): World
    requires p in w.procs
  {
    var r := Read(w.file, w.procs[p].cached);
    var proc := w.procs[p].(cached := r.cached);
    if r.auth.None? then With(w, p, proc)
    else
      var current := r.auth.value;
      if proc.failed == Some(current.refresh) || !Needed(need, current, now) then With(w, p, proc)
      else
        With(w, p, proc.(phase := Posting(current))).(
          lock := Some(p), posts := w.posts + [Post(p, current.refresh)])
  }

  /** The endpoint refused the token. When the file holds another one by now, nothing
      failed. */
  function Rejected(file: File, proc: Proc, token: Token): Proc {
    var r := Read(file, None);
    if r.auth.None? || r.auth.value.refresh != token then proc.(cached := r.cached, phase := Out)
    else proc.(cached := r.cached, failed := Some(token), phase := Out)
  }

  function Next(w: World, ev: Event): World {
    if !Enabled(w, ev) then w else
    match ev
    case Enter(p, need, now) => EnterStep(w, p, need, now)
    case Answers(p, answer, now) =>
      var current := w.procs[p].phase.current;
      With(w, p, w.procs[p].(phase := Writing(Updated(current, answer, now)))).(
        answers := w.answers + [Answered(current.refresh, |w.posts|)],
        seen := w.seen + {Updated(current, answer, now).refresh})
    case Rejects(p) => Unlocked(With(w, p, Rejected(w.file, w.procs[p], w.procs[p].phase.current.refresh)), p)
    case Fails(p) => Unlocked(With(w, p, w.procs[p].(phase := Out)), p)
    case BeginWrite(p) =>
      With(w, p, w.procs[p].(phase := Rewriting(w.procs[p].phase.updated))).(file := File(w.file.version + 1, None))
    case EndWrite(p) =>
      Unlocked(With(w, p, FRESH), p).(file := File(w.file.version + 1, Some(w.procs[p].phase.updated)))
    case WriteFails(p) =>
      Unlocked(With(w, p, w.procs[p].(cached := Some((w.file.version, w.procs[p].phase.updated)), phase := Out)), p)
    case Peek(p) => With(w, p, w.procs[p].(cached := Read(w.file, w.procs[p].cached).cached))
    case Crash(p) => Unlocked(With(w, p, FRESH), p)
    case Outside(content) =>
      w.(file := File(w.file.version + 1, content),
         seen := if content.Some? then w.seen + {content.value.refresh} else w.seen)
  }

  /** The file changes at the beginning and the end of a write and by writers outside the
      lock, always with a new stat; from the beginning of a write to its end it does not
      parse, unless such a writer comes. */
  lemma FileChanges(w: World, ev: Event)
    requires Enabled(w, ev)
    ensures var file := Next(w, ev).file;
      && (ev.BeginWrite? ==> file.version > w.file.version && file.content.None?)
      && (ev.EndWrite? ==> file.version > w.file.version && file.content == Some(w.procs[ev.pid].phase.updated))
      && (ev.Outside? ==> file.version > w.file.version && file.content == ev.content)
      && (!ev.BeginWrite? && !ev.EndWrite? && !ev.Outside? ==> file == w.file)
  {
  }

  /** Whenever an instance reads the file, its copy becomes the file's content, or stays when
      the stat is the copy's own or the file does not parse. */
  lemma CopyFollows(w: World, ev: Event)
    requires Enabled(w, ev) && (ev.Enter? || ev.Peek?)
    ensures var before, after := w.procs[ev.pid].cached, Next(w, ev).procs[ev.pid].cached;
      if w.file.content.None? || (before.Some? && before.value.0 == w.file.version) then after == before
      else after == Some((w.file.version, w.file.content.value))
  {
  }

  function Exec(auth: Auth, pids: set<Pid>, evs: seq<Event>): World {
    if |evs| == 0 then Init(auth, pids) else Next(Exec(auth, pids, evs[..|evs| - 1]), evs[|evs| - 1])
  }

  // --- across processes: an answered token is spent for good ---

  /** Every write completes, every answer carries a refresh token never seen before, and
      a writer outside the lock, a hand-run codex say, leaves a whole login of the same
      account with a token never seen before. */
  predicate Orderly(auth: Auth, w: World, ev: Event) {
    match ev
    case Outside(content) =>
      content.Some? && content.value.refresh !in w.seen && SameRest(auth, content.value)
    case WriteFails(_) => false
    case Crash(p) => p in w.procs ==> !w.procs[p].phase.Writing? && !w.procs[p].phase.Rewriting?
    case Answers(_, answer, _) => answer.refresh.Some? && answer.refresh.value !in w.seen
    case _ => true
  }

  ghost predicate OrderlyRun(auth: Auth, pids: set<Pid>, evs: seq<Event>)
    decreases |evs|
  {
    |evs| != 0 ==>
      && OrderlyRun(auth, pids, evs[..|evs| - 1])
      && Orderly(auth, Exec(auth, pids, evs[..|evs| - 1]), evs[|evs| - 1])
  }

  ghost predicate Unspent(w: World, token: Token) {
    token in w.seen && forall i | 0 <= i < |w.answers| :: w.answers[i].token != token
  }

  /** The fields a refresh does not touch. */
  predicate SameRest(a: Auth, b: Auth) { a.account == b.account && a.other == b.other }

  ghost predicate Good(w: World, auth: Auth, a: Auth) { Unspent(w, a.refresh) && SameRest(auth, a) }

  /** The process in the lock works on an unspent token; nobody else works. */
  ghost predicate HolderOk(w: World, auth: Auth, p: Pid, phase: Phase) {
    match phase
    case Out => true
    case Posting(current) =>
      && w.lock == Some(p) && Good(w, auth, current)
      && w.file.content.Some? && Good(w, auth, w.file.content.value)
    case Writing(updated) => w.lock == Some(p) && Good(w, auth, updated)
    case Rewriting(updated) => w.lock == Some(p) && Good(w, auth, updated)
  }

  predicate CacheOk(file: File, cached: Cache) {
    cached.Some? ==>
      && cached.value.0 <= file.version
      && (cached.value.0 == file.version ==> file.content == Some(cached.value.1))
  }

  ghost predicate Inv(auth: Auth, w: World) {
    && (forall p | p in w.procs :: HolderOk(w, auth, p, w.procs[p].phase) && CacheOk(w.file, w.procs[p].cached))
    && (w.lock.Some? ==> w.lock.value in w.procs && !w.procs[w.lock.value].phase.Out?)
    && (w.lock.None? ==> w.file.content.Some? && Good(w, auth, w.file.content.value))
    && (w.file.content.Some? ==> SameRest(auth, w.file.content.value))
    && (forall i | 0 <= i < |w.answers| :: w.answers[i].at <= |w.posts| && w.answers[i].token in w.seen)
    && (forall i, j | 0 <= i < |w.answers| && w.answers[i].at <= j < |w.posts| ::
          w.posts[j].token != w.answers[i].token)
  }

  lemma EnterInv(auth: Auth, w: World, p: Pid, need: Need, now: int)
    requires Inv(auth, w) && Enabled(w, Enter(p, need, now))
    ensures Inv(auth, EnterStep(w, p, need, now))
  {
    var w' := EnterStep(w, p, need, now);
    assert Read(w.file, w.procs[p].cached).auth == w.file.content;
    assert forall q | q in w.procs :: w.procs[q].phase.Out?;
    assert forall t :: Unspent(w, t) <==> Unspent(w', t);
  }

  lemma AnswerInv(auth: Auth, w: World, p: Pid, answer: Answer, now: int)
    requires Inv(auth, w) && Enabled(w, Answers(p, answer, now)) && Orderly(auth, w, Answers(p, answer, now))
    ensures Inv(auth, Next(w, Answers(p, answer, now)))
  {
    var w' := Next(w, Answers(p, answer, now));
    assert forall q | q in w.procs && q != p :: w.procs[q].phase.Out?;
    assert w'.answers[|w.answers|].token == w.procs[p].phase.current.refresh;
    assert Unspent(w', answer.refresh.value);
  }

  lemma WriteInv(auth: Auth, w: World, ev: Event)
    requires Inv(auth, w) && Enabled(w, ev) && (ev.BeginWrite? || ev.EndWrite?)
    ensures Inv(auth, Next(w, ev))
  {
    var w' := Next(w, ev);
    assert forall q | q in w.procs && q != ev.pid :: w.procs[q].phase.Out?;
    assert forall t :: Unspent(w, t) <==> Unspent(w', t);
  }

  lemma RestInv(auth: Auth, w: World, ev: Event)
    requires Inv(auth, w) && Enabled(w, ev) && Orderly(auth, w, ev)
    requires ev.Rejects? || ev.Fails? || ev.Peek? || ev.Crash?
    ensures Inv(auth, Next(w, ev))
  {
    var w' := Next(w, ev);
    assert forall q | q in w.procs && q != ev.pid && w.procs[ev.pid].phase != Out :: w.procs[q].phase.Out?;
    assert forall t :: Unspent(w, t) <==> Unspent(w', t);
  }

  lemma OutsideInv(auth: Auth, w: World, content: Option<Auth>)
    requires Inv(auth, w) && Orderly(auth, w, Outside(content))
    ensures Inv(auth, Next(w, Outside(content)))
  {
    var w' := Next(w, Outside(content));
    assert forall t | Unspent(w, t) :: Unspent(w', t);
    assert Unspent(w', content.value.refresh);
  }

  lemma StepInv(auth: Auth, w: World, ev: Event)
    requires Inv(auth, w) && Orderly(auth, w, ev)
    ensures Inv(auth, Next(w, ev))
  {
    if Enabled(w, ev) {
      if ev.Enter? { EnterInv(auth, w, ev.pid, ev.need, ev.now); }
      else if ev.Answers? { AnswerInv(auth, w, ev.pid, ev.answer, ev.now); }
      else if ev.BeginWrite? || ev.EndWrite? { WriteInv(auth, w, ev); }
      else if ev.Outside? { OutsideInv(auth, w, ev.content); }
      else { RestInv(auth, w, ev); }
    }
  }

  lemma {:induction false} Holds(auth: Auth, pids: set<Pid>, evs: seq<Event>)
    requires OrderlyRun(auth, pids, evs)
    ensures Inv(auth, Exec(auth, pids, evs))
  {
    if |evs| != 0 {
      Holds(auth, pids, evs[..|evs| - 1]);
      StepInv(auth, Exec(auth, pids, evs[..|evs| - 1]), evs[|evs| - 1]);
    }
  }

  /** Across all processes, in an orderly run, a refresh token that was answered with a new
      one is never posted again, by anyone. */
  lemma SpentInOrderlyRuns(auth: Auth, pids: set<Pid>, evs: seq<Event>, i: nat, j: nat)
    requires OrderlyRun(auth, pids, evs)
    requires i < |Exec(auth, pids, evs).answers|
    requires Exec(auth, pids, evs).answers[i].at <= j < |Exec(auth, pids, evs).posts|
    ensures var w := Exec(auth, pids, evs); w.posts[j].token != w.answers[i].token
  {
    Holds(auth, pids, evs);
  }

  /** Every field that is not a token survives every rewrite, and whenever the lock is
      free the file holds an unspent token. */
  lemma OtherFieldsSurvive(auth: Auth, pids: set<Pid>, evs: seq<Event>)
    requires OrderlyRun(auth, pids, evs)
    ensures var w := Exec(auth, pids, evs);
      && (w.file.content.Some? ==> w.file.content.value.account == auth.account
                                   && w.file.content.value.other == auth.other)
      && (w.lock.None? ==> w.file.content.Some? && Unspent(w, w.file.content.value.refresh))
  {
    Holds(auth, pids, evs);
  }

  // --- an answered token is spent, from its answer on ---

  /** What every run keeps: one process at most is past its re-read, with the lock; no
      copy is newer than the file. */
  ghost predicate Exclusive(w: World) {
    && (forall p | p in w.procs && !w.procs[p].phase.Out? :: w.lock == Some(p))
    && (w.lock.Some? ==> w.lock.value in w.procs && !w.procs[w.lock.value].phase.Out?)
    && (forall p | p in w.procs && w.procs[p].cached.Some? :: w.procs[p].cached.value.0 <= w.file.version)
  }

  lemma ExclusiveStep(w: World, ev: Event)
    requires Exclusive(w)
    ensures Exclusive(Next(w, ev))
  {
  }

  lemma {:induction false} ExclusiveHolds(auth: Auth, pids: set<Pid>, evs: seq<Event>)
    ensures Exclusive(Exec(auth, pids, evs))
  {
    if |evs| != 0 {
      ExclusiveHolds(auth, pids, evs[..|evs| - 1]);
      ExclusiveStep(Exec(auth, pids, evs[..|evs| - 1]), evs[|evs| - 1]);
    }
  }

  /** The file is a whole login with another token. */
  predicate Replaced(file: File, token: Token) { file.content.Some? && file.content.value.refresh != token }

  /** Nothing brings the token back: no answer and no writer outside the lock carries it,
      such a writer leaves a whole login, and a write is cut off only while the file
      holds a whole login without it. */
  predicate Harmless(w: World, ev: Event, token: Token) {
    match ev
    case Outside(content) => content.Some? && content.value.refresh != token
    case Answers(_, answer, _) => answer.refresh != Some(token)
    case WriteFails(_) => Replaced(w.file, token)
    case Crash(p) =>
      p in w.procs && Rewrites(w.procs[p].phase) ==> Replaced(w.file, token)
    case _ => true
  }

  /** Whoever works holds another token. */
  predicate WorksWithout(phase: Phase, token: Token) {
    match phase
    case Out => true
    case Posting(current) => current.refresh != token
    case Writing(updated) => updated.refresh != token
    case Rewriting(updated) => updated.refresh != token
  }

  /** The answer is still to be written, or no current copy of the token is left. */
  ghost predicate TokenGone(w: World, token: Token) {
    && Exclusive(w)
    && (forall p | p in w.procs :: WorksWithout(w.procs[p].phase, token))
    && (Replaced(w.file, token)
        || (w.lock.Some? && Rewrites(w.procs[w.lock.value].phase)))
    && (Replaced(w.file, token) ==> forall p | p in w.procs && !Rewrites(w.procs[p].phase) ::
          !Serves(w.file, w.procs[p].cached, token))
  }

  predicate Rewrites(phase: Phase) { phase.Writing? || phase.Rewriting? }

  /** The copy is taken for current, and holds the token. */
  predicate Serves(file: File, cached: Cache, token: Token) {
    cached.Some? && cached.value.0 == file.version && cached.value.1.refresh == token
  }

  /** No other process serves the token from memory while the file holds another: that
      takes two failed writes of one and the same answered token. */
  ghost predicate NoTwin(w: World, p: Pid, token: Token) {
    Replaced(w.file, token) ==> forall q | q in w.procs && q != p :: !Serves(w.file, w.procs[q].cached, token)
  }

  lemma GoneStep(w: World, ev: Event, token: Token)
    requires TokenGone(w, token) && Harmless(w, ev, token)
    ensures TokenGone(Next(w, ev), token)
    ensures var posts := Next(w, ev).posts;
      posts == w.posts || (|posts| == |w.posts| + 1 && w.posts == posts[..|w.posts|] && posts[|w.posts|].token != token)
  {
    ExclusiveStep(w, ev);
  }

  lemma AnswerGoes(w: World, p: Pid, answer: Answer, now: int)
    requires Exclusive(w) && Enabled(w, Answers(p, answer, now))
    requires answer.refresh.Some? && answer.refresh.value != w.procs[p].phase.current.refresh
    requires NoTwin(w, p, w.procs[p].phase.current.refresh)
    ensures TokenGone(Next(w, Answers(p, answer, now)), w.procs[p].phase.current.refresh)
  {
  }

  /** Across all processes, and whatever happened before, a refresh token that was answered
      with another one is never posted again by anyone, as long as nothing brings it back. */
  lemma {:induction false} AnsweredTokensAreSpent(auth: Auth, pids: set<Pid>, evs: seq<Event>, a: nat, j: nat)
    requires a < |evs| && evs[a].Answers? && Enabled(Exec(auth, pids, evs[..a]), evs[a])
    requires evs[a].answer.refresh.Some?
    requires evs[a].answer.refresh.value != Exec(auth, pids, evs[..a]).procs[evs[a].pid].phase.current.refresh
    requires var w := Exec(auth, pids, evs[..a]); NoTwin(w, evs[a].pid, w.procs[evs[a].pid].phase.current.refresh)
    requires var token := Exec(auth, pids, evs[..a]).procs[evs[a].pid].phase.current.refresh;
      forall x | a < x < |evs| :: Harmless(Exec(auth, pids, evs[..x]), evs[x], token)
    requires |Exec(auth, pids, evs[..a]).posts| <= j < |Exec(auth, pids, evs).posts|
    ensures Exec(auth, pids, evs).posts[j].token != Exec(auth, pids, evs[..a]).procs[evs[a].pid].phase.current.refresh
  {
    StaysGone(auth, pids, evs, a);
    var token := Exec(auth, pids, evs[..a]).procs[evs[a].pid].phase.current.refresh;
    assert Exec(auth, pids, evs).posts[j].token != token;
  }

  lemma {:induction false} StaysGone(auth: Auth, pids: set<Pid>, evs: seq<Event>, a: nat)
    requires a < |evs| && evs[a].Answers? && Enabled(Exec(auth, pids, evs[..a]), evs[a])
    requires evs[a].answer.refresh.Some?
    requires evs[a].answer.refresh.value != Exec(auth, pids, evs[..a]).procs[evs[a].pid].phase.current.refresh
    requires var w := Exec(auth, pids, evs[..a]); NoTwin(w, evs[a].pid, w.procs[evs[a].pid].phase.current.refresh)
    requires var token := Exec(auth, pids, evs[..a]).procs[evs[a].pid].phase.current.refresh;
      forall x | a < x < |evs| :: Harmless(Exec(auth, pids, evs[..x]), evs[x], token)
    ensures var before, w := Exec(auth, pids, evs[..a]), Exec(auth, pids, evs);
      var token := before.procs[evs[a].pid].phase.current.refresh;
      && TokenGone(w, token) && |before.posts| <= |w.posts|
      && forall j | |before.posts| <= j < |w.posts| :: w.posts[j].token != token
  {
    var past, ev := evs[..|evs| - 1], evs[|evs| - 1];
    var token := Exec(auth, pids, evs[..a]).procs[evs[a].pid].phase.current.refresh;
    if a == |evs| - 1 {
      ExclusiveHolds(auth, pids, past);
      AnswerGoes(Exec(auth, pids, past), ev.pid, ev.answer, ev.now);
    } else {
      assert past[..a] == evs[..a] && past[a] == evs[a];
      forall x | a < x < |past| ensures Harmless(Exec(auth, pids, past[..x]), past[x], token) {
        assert past[..x] == evs[..x] && past[x] == evs[x];
      }
      StaysGone(auth, pids, past, a);
      assert evs[..|evs| - 1] == past;
      GoneStep(Exec(auth, pids, past), ev, token);
    }
  }

  // --- one instance: a rejected token is not tried again ---

  /** The instance marked `token` as failed and has nothing else to post. */
  predicate Barred(w: World, p: Pid, token: Token) {
    && p in w.procs
    && w.procs[p].failed == Some(token)
    && w.procs[p].phase.Out?
    && (w.procs[p].cached.Some? ==> w.procs[p].cached.value.1.refresh == token)
  }

  predicate FileHolds(w: World, token: Token) {
    w.file.content.Some? && w.file.content.value.refresh == token
  }

  lemma RejectionBars(w: World, p: Pid)
    requires Enabled(w, Rejects(p)) && FileHolds(w, w.procs[p].phase.current.refresh)
    ensures Barred(Next(w, Rejects(p)), p, w.procs[p].phase.current.refresh)
  {
  }

  function PostsBy(posts: seq<Post>, p: Pid): nat {
    if |posts| == 0 then 0
    else PostsBy(posts[..|posts| - 1], p) + if posts[|posts| - 1].pid == p then 1 else 0
  }

  lemma StaysBarred(w: World, ev: Event, p: Pid, token: Token)
    requires Barred(w, p, token) && FileHolds(w, token) && ev != Crash(p)
    ensures Barred(Next(w, ev), p, token)
    ensures PostsBy(Next(w, ev).posts, p) == PostsBy(w.posts, p)
  {
    if Enabled(w, ev) && ev.Enter? {
      var w' := Next(w, ev);
      if |w'.posts| != |w.posts| { assert w'.posts[..|w'.posts| - 1] == w.posts; }
    }
  }

  /** Any run from a given world. */
  function Run(w: World, evs: seq<Event>): World {
    if |evs| == 0 then w else Next(Run(w, evs[..|evs| - 1]), evs[|evs| - 1])
  }

  lemma {:induction false} BarredPostsNothing(w: World, evs: seq<Event>, p: Pid, token: Token)
    requires Barred(w, p, token)
    requires forall k | 0 <= k <= |evs| :: FileHolds(Run(w, evs[..k]), token)
    requires forall k | 0 <= k < |evs| :: evs[k] != Crash(p)
    ensures PostsBy(Run(w, evs).posts, p) == PostsBy(w.posts, p)
    ensures Barred(Run(w, evs), p, token)
  {
    if |evs| != 0 {
      var past := evs[..|evs| - 1];
      assert forall k | 0 <= k <= |past| :: past[..k] == evs[..k];
      BarredPostsNothing(w, past, p, token);
      assert evs[..|past|] == past;
      StaysBarred(Run(w, past), evs[|evs| - 1], p, token);
    }
  }

  /** After the endpoint rejected its token an instance posts nothing as long as the file
      goes on holding that token, whatever other processes and outside writers do, until
      the instance itself is restarted. */
  lemma RejectedTokenIsNotRetried(w: World, p: Pid, evs: seq<Event>)
    requires Enabled(w, Rejects(p)) && FileHolds(w, w.procs[p].phase.current.refresh)
    requires var token := w.procs[p].phase.current.refresh;
      forall k | 0 <= k <= |evs| :: FileHolds(Run(Next(w, Rejects(p)), evs[..k]), token)
    requires forall k | 0 <= k < |evs| :: evs[k] != Crash(p)
    ensures PostsBy(Run(Next(w, Rejects(p)), evs).posts, p) == PostsBy(w.posts, p)
  {
    RejectionBars(w, p);
    BarredPostsNothing(Next(w, Rejects(p)), evs, p, w.procs[p].phase.current.refresh);
  }

  // --- one instance: an answer survives a failed write ---

  /** The instance answers with `auth` as long as the file's stat stays. */
  predicate AnswersWith(w: World, p: Pid, auth: Auth) {
    && p in w.procs && w.procs[p].phase.Out?
    && Read(w.file, w.procs[p].cached).auth == Some(auth)
    && w.procs[p].cached == Some((w.file.version, auth))
  }

  /** When the file cannot be written, the instance serves the tokens it was given, to
      every reader, until the file's stat changes, it posts another refresh, or it is
      restarted. */
  lemma {:induction false} FailedWriteServesFromMemory(w: World, evs: seq<Event>, p: Pid)
    requires Enabled(w, WriteFails(p))
    requires forall k | 0 <= k <= |evs| ::
      var u := Run(Next(w, WriteFails(p)), evs[..k]);
      u.file.version == w.file.version && p in u.procs && u.procs[p].phase.Out?
    requires forall k | 0 <= k < |evs| :: evs[k] != Crash(p)
    ensures AnswersWith(Run(Next(w, WriteFails(p)), evs), p, w.procs[p].phase.updated)
  {
    var w1 := Next(w, WriteFails(p));
    if |evs| != 0 {
      var past := evs[..|evs| - 1];
      assert forall k | 0 <= k <= |past| :: past[..k] == evs[..k];
      FailedWriteServesFromMemory(w, past, p);
      assert evs[..|evs|] == evs && evs[..|past|] == past;
      assert Run(w1, evs) == Next(Run(w1, past), evs[|evs| - 1]);
      StaysServing(Run(w1, past), evs[|evs| - 1], p, w.procs[p].phase.updated);
    }
  }

  lemma StaysServing(w: World, ev: Event, p: Pid, auth: Auth)
    requires AnswersWith(w, p, auth) && ev != Crash(p)
    requires Next(w, ev).file.version == w.file.version && Next(w, ev).procs[p].phase.Out?
    ensures AnswersWith(Next(w, ev), p, auth)
  {
  }

  /** Why spent tokens need completed writes: a process that loses the answer, to a
      failed write and a restart, posts the spent token again. */
  lemma LostAnswerIsPostedAgain(w: World, p: Pid, answer: Answer, now: int, current: Auth)
    requires p in w.procs && w.procs[p].phase == Posting(current)
    requires w.lock == Some(p) && w.file.content == Some(current) && RefreshDue(current, now)
    ensures var w' := Run(w, [Answers(p, answer, now), WriteFails(p), Crash(p), Enter(p, Age, now)]);
      && |w'.posts| == |w.posts| + 1
      && w'.posts[|w.posts|] == Post(p, current.refresh)
      && |w'.answers| == |w.answers| + 1
      && w'.answers[|w.answers|] == Answered(current.refresh, |w.posts|)
  {
    var w1 := Next(w, Answers(p, answer, now));
    var w2 := Next(w1, WriteFails(p));
    var w3 := Next(w2, Crash(p));
    var evs := [Answers(p, answer, now), WriteFails(p), Crash(p), Enter(p, Age, now)];
    assert Run(w, evs[..0]) == w;
    assert evs[..1][..0] == evs[..0] && evs[..2][..1] == evs[..1] && evs[..3][..2] == evs[..2];
    assert Run(w, evs[..1]) == w1;
    assert Run(w, evs[..2]) == w2;
    assert Run(w, evs[..3]) == w3;
    assert Run(w, evs) == Next(w3, Enter(p, Age, now));
  }

  /** And why a write must not be cut off midway: another process takes its old copy for
      the last good one while the file does not parse, and posts the spent token. */
  lemma TornWriteIsPostedAgain(w: World, p: Pid, q: Pid, answer: Answer, now: int, current: Auth)
    requires p in w.procs && q in w.procs && p != q
    requires w.procs[p].phase == Posting(current) && w.lock == Some(p)
    requires w.procs[q] == Proc(Some((w.file.version, current)), None, Out) && RefreshDue(current, now)
    ensures var w' := Run(w, [Answers(p, answer, now), BeginWrite(p), WriteFails(p), Enter(q, Age, now)]);
      && |w'.posts| == |w.posts| + 1
      && w'.posts[|w.posts|] == Post(q, current.refresh)
      && |w'.answers| == |w.answers| + 1
      && w'.answers[|w.answers|] == Answered(current.refresh, |w.posts|)
  {
    var w1 := Next(w, Answers(p, answer, now));
    var w2 := Next(w1, BeginWrite(p));
    var w3 := Next(w2, WriteFails(p));
    var evs := [Answers(p, answer, now), BeginWrite(p), WriteFails(p), Enter(q, Age, now)];
    assert Run(w, evs[..0]) == w;
    assert evs[..1][..0] == evs[..0] && evs[..2][..1] == evs[..1] && evs[..3][..2] == evs[..2];
    assert Run(w, evs[..1]) == w1;
    assert Run(w, evs[..2]) == w2;
    assert Run(w, evs[..3]) == w3;
    assert Run(w, evs) == Next(w3, Enter(q, Age, now));
  }

  // --- what an answer gives ---

  /** The instance once its answer is written, or the write of it failed. */
  function AfterAnswer(p: Pid, answer: Answer, now: int, written: bool): seq<Event> {
    if written then [Answers(p, answer, now), BeginWrite(p), EndWrite(p)] else [Answers(p, answer, now), WriteFails(p)]
  }

  lemma RunTwo(w: World, a: Event, b: Event)
    ensures Run(w, [a, b]) == Next(Next(w, a), b)
  {
    assert [a][..0] == [] && Run(w, [a]) == Next(w, a);
    assert [a, b][..1] == [a];
  }

  lemma RunThree(w: World, a: Event, b: Event, c: Event)
    ensures Run(w, [a, b, c]) == Next(Next(Next(w, a), b), c)
  {
    assert [a, b, c][..2] == [a, b];
    RunTwo(w, a, b);
  }

  /** Written or not, the instance then reads the login with every field the answer gave, the
      file holds it when it was written, and the next request posts another refresh if and
      only if that login is not good any more or the endpoint refused its token before. */
  lemma AnswerIsServed(w: World, p: Pid, answer: Answer, now: int, written: bool, later: int)
    requires Exclusive(w) && p in w.procs && w.procs[p].phase.Posting?
    ensures p in Run(w, AfterAnswer(p, answer, now, written)).procs
    ensures var w' := Run(w, AfterAnswer(p, answer, now, written));
      var current := w.procs[p].phase.current;
      var login := Read(w'.file, w'.procs[p].cached).auth;
      && login.Some? && Took(login.value, current, answer, now)
      && (written ==> w'.file.content == login)
      && Enabled(w', Enter(p, Age, later))
      && (|Next(w', Enter(p, Age, later)).posts| == |w'.posts| <==>
            || StillGood(login.value, later)
            || (!written && w.procs[p].failed == Some(login.value.refresh)))
  {
    if written { RunThree(w, Answers(p, answer, now), BeginWrite(p), EndWrite(p)); }
    else { RunTwo(w, Answers(p, answer, now), WriteFails(p)); }
  }
}
