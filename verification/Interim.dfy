/** The progress limiter of one turn: a bounded buffer of lines, released by arrival
    or by time, into a bounded queue with a single consumer. */
module Interim {
  import opened Options
  import opened PyText

  const INTERIM_DIGEST_LINES := 3
  const INTERIM_LINE_MAX_CHARS := 200
  const INTERIM_QUEUE_MAX := 8

  /** Fixed for the turn. */
  datatype Pacing = Pacing(start: int, warmup: nat, minGap: nat)

  /** The four readings of the clock behind one release: at the warm-up check, at the gap
      check, for the header, and after the queue took the chunk. */
  datatype Clock = Clock(warm: int, check: int, header: int, post: int)

  datatype Chunk = Chunk(elapsed: int, lines: seq<string>)

  /** One successful enqueue: the chunk is made of `received[since..upto]`. */
  datatype Release = Release(chunk: Chunk, since: nat, upto: nat, clock: Clock, closing: bool)

  /** `received`, `releases` and `handed` are history: every line held so far, every
      chunk the queue took, and every chunk the consumer took from it. */
  datatype State = State(
    lines: seq<string>,
    news: nat,
    queue: seq<Chunk>,
    closed: bool,
    lastPost: Option<int>,
    received: seq<string>,
    releases: seq<Release>,
    handed: seq<Chunk>)

  const INIT := State([], 0, [], false, None, [], [], [])

  /** The newest INTERIM_DIGEST_LINES of a list of lines. */
  function Newest(s: seq<string>): seq<string> {
    if |s| <= INTERIM_DIGEST_LINES then s else s[|s| - INTERIM_DIGEST_LINES..]
  }

  function Cut(line: string): (cut: string)
    ensures |cut| <= INTERIM_LINE_MAX_CHARS
    ensures |line| <= INTERIM_LINE_MAX_CHARS ==> cut == line
    ensures |line| > INTERIM_LINE_MAX_CHARS ==>
      |cut| == INTERIM_LINE_MAX_CHARS && cut[..199] <= line && cut[199] == '\U{2026}'
  {
    if |line| > INTERIM_LINE_MAX_CHARS then line[..INTERIM_LINE_MAX_CHARS - 1] + "\U{2026}" else line
  }

  /** The lines of a block that are held, in order. */
  function Held(lines: seq<string>): seq<string> {
    if |lines| == 0 then []
    else if Blank(lines[0]) then Held(lines[1..])
    else [Cut(lines[0])] + Held(lines[1..])
  }

  /** A line that is not blank is held, cut; a blank one is not. */
  lemma HeldOne(line: string)
    ensures Held([line]) == if forall i | 0 <= i < |line| :: IsSpace(line[i]) then [] else [Cut(line)]
  {
    assert [line][1..] == [];
  }

  /** And each line of a block for itself, in order. */
  lemma {:induction false} HeldAppend(a: seq<string>, b: seq<string>)
    ensures Held(a + b) == Held(a) + Held(b)
  {
    if |a| == 0 {
      assert a + b == b;
    } else {
      assert (a + b)[1..] == a[1..] + b;
      HeldAppend(a[1..], b);
    }
  }

  function Receive(s: State, line: string): State {
    s.(lines := Newest(s.lines + [line]), news := s.news + 1, received := s.received + [line])
  }

  function ReceiveAll(s: State, lines: seq<string>): State
    decreases |lines|
  {
    if |lines| == 0 then s else ReceiveAll(Receive(s, lines[0]), lines[1..])
  }

  /** How many lines had been received at the last successful enqueue. */
  function Mark(s: State): nat { if |s.releases| == 0 then 0 else s.releases[|s.releases| - 1].upto }

  function PostBuffer(p: Pacing, s: State, t: Clock, closing: bool): State {
    if s.news == 0 then s
    else if |s.queue| >= INTERIM_QUEUE_MAX then s.(news := 0)
    else
      var chunk := Chunk(t.header - p.start, s.lines);
      s.(news := 0, queue := s.queue + [chunk], lines := [], lastPost := Some(t.post),
         releases := s.releases + [Release(chunk, Mark(s), |s.received|, t, closing)])
  }

  predicate Due(p: Pacing, s: State, t: Clock) {
    && !s.closed && s.news != 0
    && t.warm - p.start >= p.warmup
    && (s.lastPost.Some? ==> t.check - s.lastPost.value >= p.minGap)
  }

  function Flush(p: Pacing, s: State, t: Clock): State {
    if Due(p, s, t) then PostBuffer(p, s, t, false) else s
  }

  function EmitStep(p: Pacing, s: State, text: string, t: Clock): State {
    if s.closed then s else Flush(p, ReceiveAll(s, Held(SplitLines(text))), t)
  }

  /** The synchronous start of `aclose`. */
  function CloseStep(p: Pacing, s: State, flush: bool, t: Clock): State {
    if s.closed then s
    else
      var s1 := s.(closed := true);
      if flush && t.warm - p.start >= p.warmup then PostBuffer(p, s1, t, true) else s1.(news := 0)
  }

  datatype Event =
    | Emit(text: string, clock: Clock)
    | Tick(clock: Clock)
    | Dequeue
    | Close(flush: bool, clock: Clock)
    | Cancel

  predicate Monotone(t: Clock) { t.warm <= t.check <= t.header <= t.post }

  function Next(p: Pacing, s: State, ev: Event): State {
    match ev
    case Emit(text, t) => if Monotone(t) then EmitStep(p, s, text, t) else s
    case Tick(t) => if Monotone(t) && |s.queue| == 0 then Flush(p, s, t) else s
    case Dequeue => if |s.queue| == 0 then s else s.(queue := s.queue[1..], handed := s.handed + [s.queue[0]])
    case Close(flush, t) => if Monotone(t) then CloseStep(p, s, flush, t) else s
    case Cancel => s.(closed := true)
  }

  function Exec(p: Pacing, evs: seq<Event>): State {
    if |evs| == 0 then INIT else Next(p, Exec(p, evs[..|evs| - 1]), evs[|evs| - 1])
  }

  // --- what every run keeps ---

  lemma NewestGrows(s: seq<string>, line: string)
    ensures Newest(Newest(s) + [line]) == Newest(s + [line])
  {
  }

  function Chunks(releases: seq<Release>): seq<Chunk> {
    if |releases| == 0 then [] else Chunks(releases[..|releases| - 1]) + [releases[|releases| - 1].chunk]
  }

  /** What a release says about the lines it took and the time it was made. */
  ghost predicate ReleaseOk(p: Pacing, r: Release, received: seq<string>) {
    && r.since < r.upto <= |received|
    && r.chunk.lines == Newest(received[r.since..r.upto])
    && Monotone(r.clock) && r.clock.warm - p.start >= p.warmup
    && r.chunk.elapsed == r.clock.header - p.start
  }

  /** A release starts where the one before it ended, a gap later unless it closes. */
  predicate Follows(p: Pacing, before: Release, r: Release) {
    && !before.closing
    && r.since == before.upto
    && (r.closing || r.clock.check - before.clock.post >= p.minGap)
  }

  ghost predicate ReleasesOk(p: Pacing, releases: seq<Release>, received: seq<string>) {
    && (forall i | 0 <= i < |releases| :: ReleaseOk(p, releases[i], received))
    && (|releases| != 0 ==> releases[0].since == 0)
    && (forall i | 0 < i < |releases| :: Follows(p, releases[i - 1], releases[i]))
  }

  /** What is held is the newest of what came since the last enqueue. */
  ghost predicate BufferOk(lines: seq<string>, news: nat, received: seq<string>, mark: nat) {
    && mark <= |received|
    && lines == Newest(received[mark..])
    && (news != 0 ==> mark < |received|)
  }

  ghost predicate LastOk(closed: bool, lastPost: Option<int>, releases: seq<Release>) {
    if |releases| == 0 then lastPost == None
    else
      var last := releases[|releases| - 1];
      lastPost == Some(last.clock.post) && (last.closing ==> closed)
  }

  ghost predicate Inv(p: Pacing, s: State) {
    && ReleasesOk(p, s.releases, s.received)
    && BufferOk(s.lines, s.news, s.received, Mark(s))
    && LastOk(s.closed, s.lastPost, s.releases)
    && |s.queue| <= INTERIM_QUEUE_MAX
    && s.handed + s.queue == Chunks(s.releases)
  }

  lemma ReleasesMore(p: Pacing, releases: seq<Release>, received: seq<string>, line: string)
    requires ReleasesOk(p, releases, received)
    ensures ReleasesOk(p, releases, received + [line])
  {
    forall i | 0 <= i < |releases| ensures ReleaseOk(p, releases[i], received + [line]) {
      var r := releases[i];
      assert ReleaseOk(p, r, received);
      assert (received + [line])[r.since..r.upto] == received[r.since..r.upto];
    }
  }

  lemma BufferMore(lines: seq<string>, news: nat, received: seq<string>, mark: nat, line: string)
    requires BufferOk(lines, news, received, mark)
    ensures BufferOk(Newest(lines + [line]), news + 1, received + [line], mark)
  {
    assert (received + [line])[mark..] == received[mark..] + [line];
    NewestGrows(received[mark..], line);
  }

  lemma ReceiveInv(p: Pacing, s: State, line: string)
    requires Inv(p, s)
    ensures Inv(p, Receive(s, line))
  {
    ReleasesMore(p, s.releases, s.received, line);
    BufferMore(s.lines, s.news, s.received, Mark(s), line);
  }

  lemma {:induction false} ReceiveAllInv(p: Pacing, s: State, lines: seq<string>)
    requires Inv(p, s)
    ensures Inv(p, ReceiveAll(s, lines)) && ReceiveAll(s, lines).closed == s.closed
    decreases |lines|
  {
    if |lines| != 0 {
      ReceiveInv(p, s, lines[0]);
      ReceiveAllInv(p, Receive(s, lines[0]), lines[1..]);
    }
  }

  lemma ChunksAdd(releases: seq<Release>, r: Release)
    ensures Chunks(releases + [r]) == Chunks(releases) + [r.chunk]
  {
    assert (releases + [r])[..|releases|] == releases;
  }

  lemma EachAdd(p: Pacing, releases: seq<Release>, received: seq<string>, r: Release)
    requires forall i | 0 <= i < |releases| :: ReleaseOk(p, releases[i], received)
    requires ReleaseOk(p, r, received)
    ensures forall i | 0 <= i < |releases + [r]| :: ReleaseOk(p, (releases + [r])[i], received)
  {
    forall i | 0 <= i < |releases + [r]| ensures ReleaseOk(p, (releases + [r])[i], received) {
      if i < |releases| { assert (releases + [r])[i] == releases[i]; }
    }
  }

  lemma FollowsAdd(p: Pacing, releases: seq<Release>, r: Release)
    requires forall i | 0 < i < |releases| :: Follows(p, releases[i - 1], releases[i])
    requires |releases| != 0 ==> Follows(p, releases[|releases| - 1], r)
    ensures forall i | 0 < i < |releases + [r]| :: Follows(p, (releases + [r])[i - 1], (releases + [r])[i])
  {
    forall i | 0 < i < |releases + [r]| ensures Follows(p, (releases + [r])[i - 1], (releases + [r])[i]) {
      if i < |releases| {
        assert Follows(p, releases[i - 1], releases[i]);
        assert (releases + [r])[i] == releases[i] && (releases + [r])[i - 1] == releases[i - 1];
      }
    }
  }

  lemma ReleasesAdd(p: Pacing, releases: seq<Release>, received: seq<string>, r: Release)
    requires ReleasesOk(p, releases, received) && ReleaseOk(p, r, received)
    requires if |releases| == 0 then r.since == 0 else Follows(p, releases[|releases| - 1], r)
    ensures ReleasesOk(p, releases + [r], received)
  {
    EachAdd(p, releases, received, r);
    FollowsAdd(p, releases, r);
  }

  lemma NewReleaseOk(p: Pacing, s: State, t: Clock, closing: bool)
    requires BufferOk(s.lines, s.news, s.received, Mark(s)) && s.news != 0
    requires Monotone(t) && t.warm - p.start >= p.warmup
    ensures ReleaseOk(p, Release(Chunk(t.header - p.start, s.lines), Mark(s), |s.received|, t, closing), s.received)
  {
    assert s.received[Mark(s)..|s.received|] == s.received[Mark(s)..];
  }

  lemma EmptyBufferOk(received: seq<string>)
    ensures BufferOk([], 0, received, |received|)
  {
    assert received[|received|..] == [];
  }

  /** The state a successful enqueue leads to. */
  lemma PostedState(p: Pacing, s: State, t: Clock, closing: bool, r: Release)
    requires s.news != 0 && |s.queue| < INTERIM_QUEUE_MAX
    requires r == Release(Chunk(t.header - p.start, s.lines), Mark(s), |s.received|, t, closing)
    ensures var s' := PostBuffer(p, s, t, closing);
      && s'.releases == s.releases + [r] && s'.lines == [] && s'.news == 0 && s'.received == s.received
      && Mark(s') == |s.received| && s'.lastPost == Some(t.post) && s'.closed == s.closed
      && s'.queue == s.queue + [r.chunk] && s'.handed == s.handed
  {
  }

  lemma LastAdd(closed: bool, releases: seq<Release>, r: Release)
    requires r.closing ==> closed
    ensures LastOk(closed, Some(r.clock.post), releases + [r])
  {
  }

  lemma PostInv(p: Pacing, s: State, t: Clock, closing: bool)
    requires Inv(p, s) && Monotone(t) && t.warm - p.start >= p.warmup
    requires |s.releases| != 0 ==> !s.releases[|s.releases| - 1].closing
    requires closing ==> s.closed
    requires !closing && s.lastPost.Some? ==> t.check - s.lastPost.value >= p.minGap
    ensures Inv(p, PostBuffer(p, s, t, closing))
  {
    if s.news != 0 && |s.queue| < INTERIM_QUEUE_MAX {
      var r := Release(Chunk(t.header - p.start, s.lines), Mark(s), |s.received|, t, closing);
      var s' := PostBuffer(p, s, t, closing);
      PostedState(p, s, t, closing, r);
      NewReleaseOk(p, s, t, closing);
      assert if |s.releases| == 0 then r.since == 0 else Follows(p, s.releases[|s.releases| - 1], r);
      assert ReleasesOk(p, s'.releases, s'.received) by { ReleasesAdd(p, s.releases, s.received, r); }
      assert BufferOk(s'.lines, s'.news, s'.received, Mark(s')) by { EmptyBufferOk(s.received); }
      assert LastOk(s'.closed, s'.lastPost, s'.releases) by { LastAdd(s.closed, s.releases, r); }
      ChunksAdd(s.releases, r);
      assert s'.handed + s'.queue == (s.handed + s.queue) + [r.chunk];
    }
  }

  lemma FlushInv(p: Pacing, s: State, t: Clock)
    requires Inv(p, s) && Monotone(t)
    ensures Inv(p, Flush(p, s, t))
  {
    if Due(p, s, t) { PostInv(p, s, t, false); }
  }

  lemma CloseInv(p: Pacing, s: State, flush: bool, t: Clock)
    requires Inv(p, s) && Monotone(t)
    ensures Inv(p, CloseStep(p, s, flush, t))
  {
    var s1 := s.(closed := true);
    assert Inv(p, s1);
    if !s.closed && flush && t.warm - p.start >= p.warmup { PostInv(p, s1, t, true); }
  }

  lemma EmitInv(p: Pacing, s: State, text: string, t: Clock)
    requires Inv(p, s) && Monotone(t)
    ensures Inv(p, EmitStep(p, s, text, t))
  {
    ReceiveAllInv(p, s, Held(SplitLines(text)));
    FlushInv(p, ReceiveAll(s, Held(SplitLines(text))), t);
  }

  lemma DequeueInv(p: Pacing, s: State)
    requires Inv(p, s)
    ensures Inv(p, Next(p, s, Dequeue))
  {
    if |s.queue| != 0 { assert s.handed + [s.queue[0]] + s.queue[1..] == s.handed + s.queue; }
  }

  lemma StepInv(p: Pacing, s: State, ev: Event)
    requires Inv(p, s)
    ensures Inv(p, Next(p, s, ev))
  {
    match ev
    case Emit(text, t) => if Monotone(t) { EmitInv(p, s, text, t); }
    case Tick(t) => if Monotone(t) { FlushInv(p, s, t); }
    case Dequeue => DequeueInv(p, s);
    case Close(flush, t) => if Monotone(t) { CloseInv(p, s, flush, t); }
    case Cancel =>
  }

  lemma {:induction false} Holds(p: Pacing, evs: seq<Event>)
    ensures Inv(p, Exec(p, evs))
  {
    if |evs| == 0 {
      assert INIT.handed + INIT.queue == Chunks(INIT.releases);
    } else {
      Holds(p, evs[..|evs| - 1]);
      StepInv(p, Exec(p, evs[..|evs| - 1]), evs[|evs| - 1]);
    }
  }

  /** Every chunk is exactly the newest three, or fewer, of the lines received since the
      enqueue before it; the stretches follow each other without a gap or an overlap,
      so no line is in two chunks even when the queue was full in between. */
  lemma ChunksTakeTheNewestLines(p: Pacing, evs: seq<Event>, i: nat)
    requires i < |Exec(p, evs).releases|
    ensures var s := Exec(p, evs);
      var r := s.releases[i];
      && r.since < r.upto <= |s.received|
      && r.chunk.lines == s.received[if r.upto - r.since > 3 then r.upto - 3 else r.since..r.upto]
      && 0 < |r.chunk.lines| <= 3
      && r.since == (if i == 0 then 0 else s.releases[i - 1].upto)
  {
    Holds(p, evs);
    var s := Exec(p, evs);
    assert ReleaseOk(p, s.releases[i], s.received);
    if i > 0 { assert Follows(p, s.releases[i - 1], s.releases[i]); }
  }

  /** Nothing before the warm-up; chunks at least the gap apart, from the enqueue of one
      to the check of the next, except for the one closing flush, which is the last. */
  lemma ChunksArePaced(p: Pacing, evs: seq<Event>, i: nat)
    requires i < |Exec(p, evs).releases|
    ensures var rs := Exec(p, evs).releases;
      && rs[i].clock.warm - p.start >= p.warmup
      && (i > 0 && !rs[i].closing ==> rs[i].clock.check - rs[i - 1].clock.post >= p.minGap)
      && (rs[i].closing ==> i == |rs| - 1 && Exec(p, evs).closed)
      && rs[i].chunk.elapsed == rs[i].clock.header - p.start >= p.warmup
  {
    Holds(p, evs);
    var s := Exec(p, evs);
    var rs := s.releases;
    assert ReleaseOk(p, rs[i], s.received);
    if i > 0 { assert Follows(p, rs[i - 1], rs[i]); }
    if i < |rs| - 1 { assert Follows(p, rs[i], rs[i + 1]); }
  }

  /** The queue stays within its bound, and the consumer gets the chunks in order. */
  lemma DeliveryKeepsOrder(p: Pacing, evs: seq<Event>)
    ensures var s := Exec(p, evs);
      && |s.queue| <= INTERIM_QUEUE_MAX
      && s.handed + s.queue == Chunks(s.releases)
  {
    Holds(p, evs);
  }

  /** After the close nothing is received or enqueued any more. */
  lemma {:induction false} ClosedIsQuiet(p: Pacing, evs: seq<Event>, k: nat)
    requires k <= |evs| && Exec(p, evs[..k]).closed
    ensures var before, after := Exec(p, evs[..k]), Exec(p, evs);
      after.closed && after.releases == before.releases && after.received == before.received
    decreases |evs|
  {
    if k == |evs| {
      assert evs[..k] == evs;
    } else {
      var past := evs[..|evs| - 1];
      assert past[..k] == evs[..k];
      ClosedIsQuiet(p, past, k);
    }
  }

  /** A cancellation or a close, whichever comes first, is the end of it. */
  lemma NothingAfterTheEnd(p: Pacing, evs: seq<Event>, a: nat)
    requires a < |evs| && (evs[a].Cancel? || (evs[a].Close? && Monotone(evs[a].clock)))
    ensures var end, after := Exec(p, evs[..a + 1]), Exec(p, evs);
      after.closed && after.releases == end.releases && after.received == end.received
  {
    assert evs[..a + 1][..a] == evs[..a];
    ClosedIsQuiet(p, evs, a + 1);
  }

  // --- what is due is released ---

  /** The warm-up is over, and so is the gap since the last chunk was queued. */
  predicate Paced(p: Pacing, releases: seq<Release>, t: Clock) {
    && t.warm >= p.start + p.warmup
    && (|releases| != 0 ==> t.check >= releases[|releases| - 1].clock.post + p.minGap)
  }

  /** The lines this event brings. */
  function Brings(s: State, ev: Event): seq<string> {
    if ev.Emit? && Monotone(ev.clock) && !s.closed then Held(SplitLines(ev.text)) else []
  }

  /** A chunk is due at this event: lines came since one was last due, and it is time. Time
      is asked at every text, and by the consumer when its queue is empty; the closing
      flush waits for the warm-up only. */
  predicate Attempts(p: Pacing, s: State, news: bool, ev: Event) {
    && !s.closed && (news || |Brings(s, ev)| != 0)
    && match ev
       case Emit(_, t) => Monotone(t) && Paced(p, s.releases, t)
       case Tick(t) => Monotone(t) && |s.queue| == 0 && Paced(p, s.releases, t)
       case Close(flush, t) => Monotone(t) && flush && t.warm >= p.start + p.warmup
       case _ => false
  }

  /** How many lines had been received when a chunk was last due, queued or not. */
  function Tried(p: Pacing, evs: seq<Event>): nat
    decreases |evs|, 0
  {
    if |evs| == 0 then 0
    else
      var past, ev := evs[..|evs| - 1], evs[|evs| - 1];
      if Attempts(p, Exec(p, past), HasNews(p, past), ev) then |Exec(p, evs).received| else Tried(p, past)
  }

  predicate HasNews(p: Pacing, evs: seq<Event>)
    decreases |evs|, 1
  {
    Tried(p, evs) < |Exec(p, evs).received|
  }

  lemma {:induction false} ReceivesAll(s: State, lines: seq<string>)
    ensures var after := ReceiveAll(s, lines);
      && after.received == s.received + lines && after.news == s.news + |lines|
      && after.releases == s.releases && after.queue == s.queue && after.closed == s.closed
      && after.lastPost == s.lastPost
    decreases |lines|
  {
    if |lines| != 0 { ReceivesAll(Receive(s, lines[0]), lines[1..]); }
  }

  /** What a step does, as far as `news` says whether lines wait for a chunk to be due. */
  lemma StepReleases(p: Pacing, s: State, ev: Event)
    requires LastOk(s.closed, s.lastPost, s.releases)
    ensures var s', attempts := Next(p, s, ev), Attempts(p, s, s.news != 0, ev);
      && s'.received == s.received + Brings(s, ev)
      && (!s'.closed ==> (s'.news != 0 <==> !attempts && (s.news != 0 || |Brings(s, ev)| != 0)))
      && |s'.releases| == |s.releases| + (if attempts && |s.queue| < INTERIM_QUEUE_MAX then 1 else 0)
      && s.releases <= s'.releases
  {
    if ev.Emit? { ReceivesAll(s, Held(SplitLines(ev.text))); }
  }

  lemma {:induction false} NewsIsUntried(p: Pacing, evs: seq<Event>)
    ensures Tried(p, evs) <= |Exec(p, evs).received|
    ensures !Exec(p, evs).closed ==> (Exec(p, evs).news != 0 <==> HasNews(p, evs))
  {
    if |evs| != 0 {
      var past, ev := evs[..|evs| - 1], evs[|evs| - 1];
      Holds(p, past);
      NewsIsUntried(p, past);
      var s := Exec(p, past);
      StepReleases(p, s, ev);
      assert s.closed ==> Next(p, s, ev).closed;
      assert Attempts(p, s, HasNews(p, past), ev) ==> Attempts(p, s, s.news != 0, ev);
    }
  }

  /** In every run an event queues a chunk if and only if one is due at it and the queue has
      room; the chunk then covers everything received, and nothing else is queued. */
  lemma ReleasedExactlyWhenDue(p: Pacing, evs: seq<Event>, ev: Event)
    ensures var s, s' := Exec(p, evs), Next(p, Exec(p, evs), ev);
      var queued := Attempts(p, s, HasNews(p, evs), ev) && |s.queue| < 8;
      && s'.received == s.received + Brings(s, ev)
      && |s'.releases| == |s.releases| + (if queued then 1 else 0) && s.releases <= s'.releases
      && (queued ==> var r := s'.releases[|s.releases|];
            r.upto == |s'.received| && r.clock == ev.clock && (r.closing <==> ev.Close?))
  {
    Holds(p, evs);
    NewsIsUntried(p, evs);
    StepReleases(p, Exec(p, evs), ev);
    if ev.Emit? { ReceivesAll(Exec(p, evs), Held(SplitLines(ev.text))); }
  }

  /** The event brings no line to hold. */
  predicate BringsNoLine(ev: Event) { ev.Emit? ==> Held(SplitLines(ev.text)) == [] }

  /** What a full queue costs: lines arrive, their chunk is due, and the queue has no room.
      They stay held, yet no passing of time releases them, nor does room in the queue,
      and neither does the closing flush, until another line arrives. */
  lemma DroppedChunkWaitsForALine(p: Pacing, s: State, text: string, t: Clock, evs: seq<Event>)
    requires Monotone(t) && !s.closed && |s.queue| >= INTERIM_QUEUE_MAX
    requires Due(p, ReceiveAll(s, Held(SplitLines(text))), t)
    requires forall i | 0 <= i < |evs| :: BringsNoLine(evs[i])
    ensures var after := Steps(p, Next(p, s, Emit(text, t)), evs);
      && after.releases == s.releases && after.news == 0
      && after.lines == ReceiveAll(s, Held(SplitLines(text))).lines
  {
    ReceivingReleasesNothing(s, Held(SplitLines(text)));
    StaleStaysStale(p, Next(p, s, Emit(text, t)), evs);
  }

  lemma {:induction false} ReceivingReleasesNothing(s: State, lines: seq<string>)
    ensures var after := ReceiveAll(s, lines);
      after.releases == s.releases && after.queue == s.queue && after.closed == s.closed
    decreases |lines|
  {
    if |lines| != 0 { ReceivingReleasesNothing(Receive(s, lines[0]), lines[1..]); }
  }

  lemma {:induction false} StaleStaysStale(p: Pacing, s: State, evs: seq<Event>)
    requires s.news == 0 && forall i | 0 <= i < |evs| :: BringsNoLine(evs[i])
    ensures var after := Steps(p, s, evs);
      after.releases == s.releases && after.lines == s.lines && after.news == 0
  {
    if |evs| != 0 { StaleStaysStale(p, s, evs[..|evs| - 1]); }
  }

  function Steps(p: Pacing, s: State, evs: seq<Event>): State {
    if |evs| == 0 then s else Next(p, Steps(p, s, evs[..|evs| - 1]), evs[|evs| - 1])
  }

  // --- the class ---

  class InterimProgress {
    const pacing: Pacing
    var lines: seq<string>
    var news: nat
    var queue: seq<Chunk>
    var closed: bool
    var lastPost: Option<int>
    ghost var received: seq<string>
    ghost var releases: seq<Release>
    ghost var handed: seq<Chunk>

    ghost function Value(): State
      reads this
    {
      State(lines, news, queue, closed, lastPost, received, releases, handed)
    }

    constructor (pacing: Pacing)
      ensures this.pacing == pacing && Value() == INIT
    {
      this.pacing := pacing;
      lines, news, queue, closed, lastPost := [], 0, [], false, None;
      received, releases, handed := [], [], [];
    }

    /** `deque.append` on a deque of bounded length. */
    method Append(line: string)
      requires |lines| <= INTERIM_DIGEST_LINES
      modifies `lines
      ensures lines == Newest(old(lines) + [line])
    {
      lines := lines + [line];
      if |lines| > INTERIM_DIGEST_LINES { lines := lines[1..]; }
    }

    method EmitText(text: string, t: Clock)
      requires |lines| <= INTERIM_DIGEST_LINES
      modifies this
      ensures Value() == EmitStep(pacing, old(Value()), text, t)
      ensures |lines| <= INTERIM_DIGEST_LINES
    {
      if closed { return; }
      var split := SplitLines(text);
      var i := 0;
      while i < |split|
        invariant 0 <= i <= |split| && |lines| <= INTERIM_DIGEST_LINES && !closed
        invariant ReceiveAll(Value(), Held(split[i..])) == ReceiveAll(old(Value()), Held(split))
      {
        var line := split[i];
        assert split[i..][1..] == split[i + 1..];
        i := i + 1;
        if Blank(line) { continue; }
        var held := Cut(line);
        assert ([held] + Held(split[i..]))[1..] == Held(split[i..]);
        Append(held);
        news := news + 1;
        received := received + [held];
      }
      FlushIfDue(t);
    }

    method FlushIfDue(t: Clock)
      modifies this
      ensures Value() == Flush(pacing, old(Value()), t)
    {
      if closed || news == 0 { return; }
      if t.warm - pacing.start < pacing.warmup { return; }
      if lastPost.Some? && t.check - lastPost.value < pacing.minGap { return; }
      Post(t, false);
    }

    method Post(t: Clock, closing: bool)
      modifies this
      ensures Value() == PostBuffer(pacing, old(Value()), t, closing)
    {
      if news == 0 { return; }
      news := 0;
      var chunk := Chunk(t.header - pacing.start, lines);
      if |queue| >= INTERIM_QUEUE_MAX { return; }
      ghost var mark := Mark(Value());
      queue := queue + [chunk];
      lines := [];
      lastPost := Some(t.post);
      releases := releases + [Release(chunk, mark, |received|, t, closing)];
    }

    /** One turn of the consumer's loop: a chunk to send, or the tick's check. */
    method DrainOnce(t: Clock) returns (sent: Option<Chunk>)
      requires Monotone(t)
      modifies this
      ensures Value() == Next(pacing, old(Value()), if old(queue) == [] then Tick(t) else Dequeue)
      ensures sent == if old(queue) == [] then None else Some(old(queue)[0])
    {
      if |queue| == 0 {
        FlushIfDue(t);
        return None;
      }
      sent := Some(queue[0]);
      queue := queue[1..];
      handed := handed + [sent.value];
    }

    method Aclose(flush: bool, t: Clock)
      modifies this
      ensures Value() == CloseStep(pacing, old(Value()), flush, t)
    {
      if closed { return; }
      closed := true;
      if flush && t.warm - pacing.start >= pacing.warmup { Post(t, true); }
      else if news != 0 { news := 0; }
    }

    method CancelNow()
      modifies `closed
      ensures Value() == old(Value()).(closed := true)
    {
      closed := true;
    }
  }
}
