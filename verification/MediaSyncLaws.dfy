/** The drift ladder over whole runs of samples. */
module MediaSyncLaws {
  import opened Prelude
  import opened RealDivision
  import opened MediaSync
  import Transport

  /** One sample: the transport's rate at it, and the wall time until the next one. */
  datatype Sample = Sample(rate: real, gapMs: real)

  datatype Playing = Playing(follower: Follower, lessonSeconds: real, nowMs: real)

  /** A follower with an element that plays, or lets itself be played, and lets its rate be set. */
  predicate Tracking(p: Playing) {
    && p.follower.mode == Synchronized
    && p.follower.settleUntilMs == None
    && p.follower.element.Some?
    && !p.follower.element.value.stalled
    && RateCommand !in p.follower.element.value.refuses
    && (p.follower.element.value.paused ==> PlayCommand !in p.follower.element.value.refuses)
    && p.follower.element.value.currentTime.Some?
    && LessonToMedia(p.follower.binding, p.lessonSeconds).Some?
  }

  function Drift(p: Playing): real
    requires Tracking(p)
  {
    DriftMs(LessonToMedia(p.follower.binding, p.lessonSeconds).value, p.follower.element.value.currentTime.value)
  }

  function Sampled(p: Playing, s: Sample): Follower {
    Apply(p.follower, Timeline(true, p.lessonSeconds, s.rate), OtherReason, p.nowMs).follower
  }

  /** Both clocks run for the gap: the lesson at the transport's rate, the media, unless paused, at its own. */
  function Advance(f: Follower, p: Playing, s: Sample): Playing {
    var element := match f.element
      case Some(e) => Some(if e.currentTime.Some? && !e.paused
        then e.(currentTime := Some(e.currentTime.value + e.playbackRate * s.gapMs / 1000.0)) else e)
      case None => None;
    Playing(f.(element := element), p.lessonSeconds + s.rate * s.gapMs / 1000.0, p.nowMs + s.gapMs)
  }

  function Next(p: Playing, s: Sample): Playing { Advance(Sampled(p, s), p, s) }

  function Run(p: Playing, samples: seq<Sample>): Playing
    decreases |samples|
  {
    if samples == [] then p else Run(Next(p, samples[0]), samples[1..])
  }

  /** The binding answers at the start and end of every gap. */
  predicate Covered(p: Playing, samples: seq<Sample>)
    decreases |samples|
  {
    && LessonToMedia(p.follower.binding, p.lessonSeconds).Some?
    && (samples != [] ==> Covered(Next(p, samples[0]), samples[1..]))
  }

  predicate Regular(s: Sample, smallestGap: real) {
    Transport.ValidRate(s.rate) && 0.0 < smallestGap <= s.gapMs <= 1000.0
  }

  /** The least a nudge can take off the drift: 5% of the slowest rate over the smallest gap. */
  function LeastNudge(smallestGap: real): real { NUDGE * 0.5 * smallestGap }

  /** What a sample leaves the element playing at. */
  lemma SampledRate(p: Playing, s: Sample)
    requires Tracking(p) && Abs(Drift(p)) <= HARD_SEEK_MS
    ensures var f := Sampled(p, s);
      && f == p.follower.(sequence := f.sequence, element := f.element) && f.element.Some?
      && f.element.value.currentTime == p.follower.element.value.currentTime
      && !f.element.value.stalled && !f.element.value.paused && RateCommand !in f.element.value.refuses
      && f.element.value.playbackRate == if Abs(Drift(p)) <= SYNCED_MS then s.rate else NudgedRate(Drift(p), s.rate)
  {
  }

  lemma NextDrift(p: Playing, s: Sample, smallestGap: real)
    requires Tracking(p) && Regular(s, smallestGap) && Abs(Drift(p)) <= HARD_SEEK_MS
    requires LessonToMedia(p.follower.binding, Next(p, s).lessonSeconds).Some?
    ensures Tracking(Next(p, s)) && Next(p, s).follower.hardSeekCount == p.follower.hardSeekCount
    ensures Next(p, s).follower.binding == p.follower.binding
    ensures Abs(Drift(p)) <= SYNCED_MS ==> Drift(Next(p, s)) == Drift(p)
    ensures Drift(p) > SYNCED_MS ==> Drift(Next(p, s)) == Drift(p) - NUDGE * (s.rate * s.gapMs)
    ensures Drift(p) < -SYNCED_MS ==> Drift(Next(p, s)) == Drift(p) + NUDGE * (s.rate * s.gapMs)
  {
    SampledRate(p, s);
  }

  /** Medium drift strictly shrinks at every sample, never overshoots the band, never seeks. */
  lemma ResampleShrinks(p: Playing, s: Sample, smallestGap: real)
    requires Tracking(p) && Regular(s, smallestGap) && SYNCED_MS < Abs(Drift(p)) <= HARD_SEEK_MS
    requires LessonToMedia(p.follower.binding, Next(p, s).lessonSeconds).Some?
    ensures Tracking(Next(p, s)) && Next(p, s).follower.hardSeekCount == p.follower.hardSeekCount
    ensures Abs(Drift(Next(p, s))) < Abs(Drift(p))
    ensures Abs(Drift(Next(p, s))) <= SYNCED_MS || Abs(Drift(Next(p, s))) <= Abs(Drift(p)) - LeastNudge(smallestGap)
  {
    NextDrift(p, s, smallestGap);
    NudgeBounds(s, smallestGap);
  }

  lemma NudgeBounds(s: Sample, smallestGap: real)
    requires Regular(s, smallestGap)
    ensures 0.0 < LeastNudge(smallestGap) <= NUDGE * (s.rate * s.gapMs) <= 75.0
  {
  }

  /** In the band after `n` samples, or at least `n` least nudges closer to it. */
  predicate Shrunk(before: real, after: real, n: nat, smallestGap: real) {
    Abs(after) <= SYNCED_MS || Abs(after) <= Abs(before) - n as real * LeastNudge(smallestGap)
  }

  lemma ShrunkOnce(before: real, next: real, after: real, n: nat, smallestGap: real)
    requires Shrunk(next, after, n, smallestGap)
    requires Abs(next) <= SYNCED_MS ==> after == next
    requires Abs(next) <= SYNCED_MS || Abs(next) <= Abs(before) - LeastNudge(smallestGap)
    ensures Shrunk(before, after, n + 1, smallestGap)
  {
    var nudge := LeastNudge(smallestGap);
    assert (n + 1) as real * nudge == n as real * nudge + nudge;
  }

  /** However the samples fall, the drift is in the band to stay, or has lost the least nudge each time. */
  lemma {:induction false} DriftAfter(p: Playing, samples: seq<Sample>, smallestGap: real)
    requires Tracking(p) && Abs(Drift(p)) <= HARD_SEEK_MS && Covered(p, samples)
    requires forall s <- samples :: Regular(s, smallestGap)
    ensures Tracking(Run(p, samples)) && Run(p, samples).follower.hardSeekCount == p.follower.hardSeekCount
    ensures Shrunk(Drift(p), Drift(Run(p, samples)), |samples|, smallestGap)
    ensures Abs(Drift(p)) <= SYNCED_MS ==> Drift(Run(p, samples)) == Drift(p)
    decreases |samples|
  {
    if samples != [] {
      var s, rest := samples[0], samples[1..];
      assert s in samples;
      NextDrift(p, s, smallestGap);
      if Abs(Drift(p)) > SYNCED_MS {
        ResampleShrinks(p, s, smallestGap);
      }
      DriftAfter(Next(p, s), rest, smallestGap);
      ShrunkOnce(Drift(p), Drift(Next(p, s)), Drift(Run(p, samples)), |rest|, smallestGap);
    } else {
      assert 0 as real * LeastNudge(smallestGap) == 0.0;
    }
  }

  /** Enough samples bring any drift of at most 150 ms into the band, without one hard seek. */
  lemma ResampleConverges(p: Playing, samples: seq<Sample>, smallestGap: real)
    requires Tracking(p) && Abs(Drift(p)) <= HARD_SEEK_MS && Covered(p, samples)
    requires forall s <- samples :: Regular(s, smallestGap)
    requires |samples| as real * LeastNudge(smallestGap) >= HARD_SEEK_MS - SYNCED_MS
    ensures Tracking(Run(p, samples))
    ensures Abs(Drift(Run(p, samples))) <= SYNCED_MS
    ensures Run(p, samples).follower.hardSeekCount == p.follower.hardSeekCount
  {
    DriftAfter(p, samples, smallestGap);
  }

  // ----- Hard seeks do not thrash -----

  /** A call to the follower, with the element as the page presents it then. */
  datatype Call = Call(element: Option<Element>, state: Timeline, reason: Reason, nowMs: real)

  function Called(f: Follower, call: Call): Step {
    Apply(f.(element := call.element), call.state, call.reason, call.nowMs)
  }

  /** No measurement in the run found the element in the band. */
  predicate NeverSynced(f: Follower, calls: seq<Call>)
    decreases |calls|
  {
    calls != [] ==>
      && Called(f, calls[0]).health.status != SyncedStatus
      && NeverSynced(Called(f, calls[0]).follower, calls[1..])
  }

  function AfterCalls(f: Follower, calls: seq<Call>): Follower
    decreases |calls|
  {
    if calls == [] then f else AfterCalls(Called(f, calls[0]).follower, calls[1..])
  }

  /** Whatever the page asks, and for whatever reason, a landing seek is not repeated before its
      deadline unless the element was measured in the band first. */
  lemma {:induction false} NoSecondSeekWhileSettling(f: Follower, calls: seq<Call>, deadline: real)
    requires f.settleUntilMs == Some(deadline)
    requires forall c <- calls :: c.nowMs < deadline
    requires NeverSynced(f, calls)
    ensures AfterCalls(f, calls).hardSeekCount == f.hardSeekCount
    ensures AfterCalls(f, calls).settleUntilMs == Some(deadline)
    decreases |calls|
  {
    if calls != [] {
      assert calls[0] in calls;
      NoSecondSeekWhileSettling(Called(f, calls[0]).follower, calls[1..], deadline);
    }
  }

  /** A seek is counted once, lands on the lesson, and opens a settle window of 250 ms. */
  lemma SeekOpensWindow(f: Follower, call: Call)
    ensures var g := Called(f, call).follower;
      && (g.hardSeekCount == f.hardSeekCount || g.hardSeekCount == f.hardSeekCount + 1)
      && (g.hardSeekCount != f.hardSeekCount ==>
            && g.settleUntilMs == Some(call.nowMs + SETTLE_MS)
            && g.element.Some?
            && g.element.value.currentTime == LessonToMedia(f.binding, call.state.positionSeconds)
            && (RateCommand in g.element.value.refuses || g.element.value.playbackRate == call.state.playbackRate))
  {
  }

  /** A call counts a seek if and only if it reports one and the element did not refuse it. A refused one is
      still reported, nothing waits for it, and the element stays where it was. */
  lemma SeekCountedExactly(f: Follower, call: Call)
    ensures var step := Called(f, call);
      var reported := step.health.correction == Some(HardSeek);
      && (step.follower.hardSeekCount == f.hardSeekCount + 1
          <==> (reported && call.element.Some? && SeekCommand !in call.element.value.refuses))
      && (reported && SeekCommand in call.element.value.refuses ==>
            && step.follower.settleUntilMs == None
            && step.follower.element.Some? && step.follower.element.value.currentTime == call.element.value.currentTime)
  {
  }

  // ----- How often an element is sought -----

  /** What a caller can see before the call: the element has a place to be, reports that it can go
      there, and either is told to or is more than 150 ms away. */
  predicate Misplaced(binding: Option<Binding>, c: Call) {
    && c.element.Some? && !c.element.value.stalled && c.element.value.currentTime.Some?
    && var expected := LessonToMedia(binding, c.state.positionSeconds);
    && expected.Some? && CanSeekTo(c.element.value, expected.value)
    && (c.reason != OtherReason || Abs(DriftMs(expected.value, c.element.value.currentTime.value)) > HARD_SEEK_MS)
  }

  predicate Seeks(f: Follower, c: Call) { Called(f, c).health.correction == Some(HardSeek) }

  /** A call seeks if and only if it finds the element misplaced and no seek is still landing. */
  lemma SeeksExactly(f: Follower, c: Call)
    ensures Seeks(f, c) <==> f.mode == Synchronized && Misplaced(f.binding, c) && !Settling(f, c.nowMs)
  {
  }

  /** Where a call that seeks leaves the follower. */
  lemma SoughtFollower(f: Follower, c: Call)
    requires Seeks(f, c)
    ensures var g := Called(f, c).follower;
      && g.mode == f.mode && g.binding == f.binding && c.element.Some?
      && g.settleUntilMs == (if SeekCommand in c.element.value.refuses then None else Some(c.nowMs + SETTLE_MS))
      && g.hardSeekCount == f.hardSeekCount + (if SeekCommand in c.element.value.refuses then 0 else 1)
  {
  }

  predicate AlwaysSeeks(f: Follower, calls: seq<Call>)
    decreases |calls|
  {
    calls != [] ==> Seeks(f, calls[0]) && AlwaysSeeks(Called(f, calls[0]).follower, calls[1..])
  }

  predicate NeverSeeks(f: Follower, calls: seq<Call>)
    decreases |calls|
  {
    calls != [] ==> !Seeks(f, calls[0]) && NeverSeeks(Called(f, calls[0]).follower, calls[1..])
  }

  /** No seek of the call before is still landing: it was refused, or its window is over. */
  predicate Apart(c: Call, next: Call) {
    (c.element.Some? && SeekCommand in c.element.value.refuses) || next.nowMs >= c.nowMs + SETTLE_MS
  }

  /** How many of the seeks the elements did not refuse. */
  function Taken(calls: seq<Call>): nat {
    if calls == [] then 0
    else Taken(calls[1..]) + if calls[0].element.Some? && SeekCommand in calls[0].element.value.refuses then 0 else 1
  }

  predicate AllApart(calls: seq<Call>) { forall i | 0 < i < |calls| :: Apart(calls[i - 1], calls[i]) }

  lemma ApartStep(calls: seq<Call>)
    requires calls != []
    ensures AllApart(calls) <==> AllApart(calls[1..]) && (|calls| > 1 ==> Apart(calls[0], calls[1]))
  {
    var rest := calls[1..];
    if AllApart(rest) && (|calls| > 1 ==> Apart(calls[0], calls[1])) {
      forall i | 0 < i < |calls|
        ensures Apart(calls[i - 1], calls[i])
      {
        if i > 1 {
          assert Apart(rest[i - 2], rest[i - 1]);
        }
      }
    }
    if AllApart(calls) {
      forall i | 0 < i < |rest|
        ensures Apart(rest[i - 1], rest[i])
      {
        assert Apart(calls[i + 1 - 1], calls[i + 1]);
      }
    }
  }

  /** A follower seeks at every call of a run, however long, if and only if it is synchronized, every call
      finds the element misplaced, the first comes when no seek is landing, and each other one after a
      seek that was refused or at least 250 ms after the one before. */
  lemma {:induction false} AlwaysSeeksExactly(f: Follower, calls: seq<Call>)
    ensures AlwaysSeeks(f, calls)
      <==> (forall c <- calls :: Misplaced(f.binding, c))
           && (calls != [] ==> f.mode == Synchronized && !Settling(f, calls[0].nowMs))
           && AllApart(calls)
    ensures AlwaysSeeks(f, calls) ==> AfterCalls(f, calls).hardSeekCount == f.hardSeekCount + Taken(calls)
    decreases |calls|
  {
    if calls != [] {
      var c, rest, g := calls[0], calls[1..], Called(f, calls[0]).follower;
      SeeksExactly(f, c);
      assert c in calls && forall x <- calls :: x == c || x in rest;
      if Seeks(f, c) {
        SoughtFollower(f, c);
        AlwaysSeeksExactly(g, rest);
        ApartStep(calls);
        if rest != [] {
          assert Settling(g, rest[0].nowMs) <==> !Apart(calls[0], calls[1]);
        }
      }
    }
  }

  /** With no seek landing, an element is never sought over a run if and only if no call finds it
      misplaced. One whose reported ranges hold nothing is therefore never sought. */
  lemma {:induction false} NeverSeeksExactly(f: Follower, calls: seq<Call>)
    requires f.settleUntilMs == None
    ensures NeverSeeks(f, calls) <==> f.mode != Synchronized || forall c <- calls :: !Misplaced(f.binding, c)
    decreases |calls|
  {
    if calls != [] {
      var c, rest := calls[0], calls[1..];
      SeeksExactly(f, c);
      assert c in calls && forall x <- calls :: x == c || x in rest;
      if !Seeks(f, c) {
        UnsoughtFollower(f, c);
        NeverSeeksExactly(Called(f, c).follower, rest);
      }
    }
  }

  lemma UnsoughtFollower(f: Follower, c: Call)
    requires !Seeks(f, c) && f.settleUntilMs == None
    ensures var g := Called(f, c).follower; g.mode == f.mode && g.binding == f.binding && g.settleUntilMs == None
  {
  }

  /** An element that refuses its seeks is asked again at every call that finds it misplaced. */
  lemma {:induction false} RefusedSeeksRepeat(f: Follower, calls: seq<Call>)
    requires f.mode == Synchronized && f.settleUntilMs == None
    requires forall c <- calls :: Misplaced(f.binding, c) && SeekCommand in c.element.value.refuses
    ensures AlwaysSeeks(f, calls)
    ensures AfterCalls(f, calls).hardSeekCount == f.hardSeekCount && AfterCalls(f, calls).settleUntilMs == None
    decreases |calls|
  {
    if calls != [] {
      assert calls[0] in calls;
      SoughtFollower(f, calls[0]);
      RefusedSeeksRepeat(Called(f, calls[0]).follower, calls[1..]);
    }
  }

  // ----- Elements that stay where they are -----

  /** An element resting at 0 that reports it can go anywhere up to 1000 s. */
  function Resting(refuses: set<Command>): Element {
    Element(true, 1.0, Some(0.0), false, Some([(0.0, 1000.0)]), refuses)
  }

  /** A lesson paused at 100 s, looked at every `gapMs`. */
  function Looks(n: nat, refuses: set<Command>, gapMs: real): seq<Call> {
    seq(n, i requires 0 <= i < n => Call(Some(Resting(refuses)), Timeline(false, 100.0, 1.0), OtherReason, i as real * gapMs))
  }

  predicate Bound(f: Follower) {
    && f.mode == Synchronized && f.settleUntilMs == None
    && f.binding == Some(Binding(Synchronized, 0.0, 0.0, None, None))
  }

  lemma LooksSeek(f: Follower, n: nat, refuses: set<Command>, gapMs: real)
    requires Bound(f) && (SeekCommand in refuses || gapMs >= SETTLE_MS)
    ensures var calls := Looks(n, refuses, gapMs);
      && AlwaysSeeks(f, calls)
      && AfterCalls(f, calls).hardSeekCount == f.hardSeekCount + (if SeekCommand in refuses then 0 else n)
  {
    var calls := Looks(n, refuses, gapMs);
    forall c <- calls
      ensures Misplaced(f.binding, c)
    {
      RestingMisplaced(f.binding, c, refuses);
    }
    forall i | 0 < i < n
      ensures Apart(calls[i - 1], calls[i])
    {
      var k := i - 1;
      assert calls[k].element == Some(Resting(refuses));
      assert calls[k].nowMs == k as real * gapMs && calls[i].nowMs == i as real * gapMs;
      assert i as real == k as real + 1.0;
      assert i as real * gapMs == k as real * gapMs + gapMs;
    }
    AlwaysSeeksExactly(f, calls);
    TakenLooks(calls, refuses);
  }

  lemma RestingMisplaced(binding: Option<Binding>, c: Call, refuses: set<Command>)
    requires binding == Some(Binding(Synchronized, 0.0, 0.0, None, None))
    requires c.element == Some(Resting(refuses)) && c.state.positionSeconds == 100.0
    ensures Misplaced(binding, c)
  {
    var e := Resting(refuses);
    assert e.ranges.value[0] == (0.0, 1000.0) && e.ranges.value[0] in e.ranges.value;
  }

  lemma {:induction false} TakenLooks(calls: seq<Call>, refuses: set<Command>)
    requires forall c <- calls :: c.element == Some(Resting(refuses))
    ensures Taken(calls) == if SeekCommand in refuses then 0 else |calls|
    decreases |calls|
  {
    if calls != [] {
      assert calls[0] in calls;
      TakenLooks(calls[1..], refuses);
    }
  }

  /** It ignores the seek without a word: looked at every 250 ms it is sought and counted every time. */
  lemma SilentElementRun(f: Follower, n: nat)
    requires Bound(f)
    ensures var calls := Looks(n, {}, 250.0);
      AlwaysSeeks(f, calls) && AfterCalls(f, calls).hardSeekCount == f.hardSeekCount + n
  {
    LooksSeek(f, n, {}, 250.0);
  }

  /** It throws: it is sought at every look, however close together, and never counted. */
  lemma ThrowingElementRun(f: Follower, n: nat)
    requires Bound(f)
    ensures var calls := Looks(n, {SeekCommand}, 20.0);
      AlwaysSeeks(f, calls) && AfterCalls(f, calls).hardSeekCount == f.hardSeekCount
  {
    LooksSeek(f, n, {SeekCommand}, 20.0);
  }

  // ----- Where the element is taken, and what is told of it -----

  /** The lesson time is one the binding speaks for: from its lesson anchor to its lesson end, and not past
      its media end. */
  predicate Speaks(b: Binding, lesson: real) {
    && b.mode.Synchronized? && b.lessonAnchor <= lesson
    && (b.lessonEnd.Some? ==> lesson <= b.lessonEnd.value)
    && (b.mediaEnd.Some? ==> lesson - b.lessonAnchor <= b.mediaEnd.value - b.mediaAnchor)
  }

  /** How far the element is ahead of the lesson, in seconds, each told from its anchor. */
  function Ahead(b: Binding, lesson: real, media: real): real { (media - b.mediaAnchor) - (lesson - b.lessonAnchor) }

  /** The follower is synchronized, has an element and a binding that speaks for this lesson time. */
  predicate Follows(f: Follower, c: Call) {
    && f.mode.Synchronized? && f.binding.Some? && c.element.Some? && Speaks(f.binding.value, c.state.positionSeconds)
  }

  /** And the element can be measured. */
  predicate Measurable(f: Follower, c: Call) {
    Follows(f, c) && !c.element.value.stalled && c.element.value.currentTime.Some?
  }

  /** How far off a measurable element is, in milliseconds. */
  function Off(f: Follower, c: Call): real
    requires Measurable(f, c)
  {
    Ahead(f.binding.value, c.state.positionSeconds, c.element.value.currentTime.value) * 1000.0
  }

  lemma TargetIs(f: Follower, c: Call)
    requires f.binding.Some?
    ensures var (b, x) := (f.binding.value, c.state.positionSeconds);
      LessonToMedia(f.binding, x) == if Speaks(b, x) then Some(b.mediaAnchor + (x - b.lessonAnchor)) else None
  {
  }

  /** A counted seek takes the element as far past the media anchor as the lesson is past its own. */
  lemma SeekLandsOnLesson(f: Follower, c: Call)
    requires Called(f, c).follower.hardSeekCount != f.hardSeekCount
    ensures var e := Called(f, c).follower.element;
      && f.binding.Some? && e.Some? && e.value.currentTime.Some?
      && e.value.currentTime.value - f.binding.value.mediaAnchor == c.state.positionSeconds - f.binding.value.lessonAnchor
  {
    if f.binding.Some? {
      TargetIs(f, c);
    }
  }

  /** Each status but the measured ones, exactly when it is reported. */
  lemma UnmeasuredExactly(f: Follower, c: Call)
    ensures var status := Called(f, c).health.status;
      var synchronized := f.mode.Synchronized? && f.binding.Some?;
      && (status.DetachedStatus? <==> !synchronized)
      && (status.OutOfRange? <==> synchronized && c.element.Some? && !Speaks(f.binding.value, c.state.positionSeconds))
      && (status.Unavailable? <==>
            synchronized && (c.element.None?
                             || (Follows(f, c) && !c.element.value.stalled && c.element.value.currentTime.None?)))
      && (status.Degraded? ==> Follows(f, c))
      && (Follows(f, c) && c.element.value.stalled ==> status.Degraded?)
  {
    if f.binding.Some? {
      TargetIs(f, c);
    }
  }

  /** Some reported range, or none reported at all, lets the element go where the lesson is. */
  predicate Reachable(f: Follower, c: Call)
    requires Measurable(f, c)
  {
    var b := f.binding.value;
    c.element.value.ranges.None?
    || exists r <- c.element.value.ranges.value :: Ahead(b, c.state.positionSeconds, r.0) <= 0.0 <= Ahead(b, c.state.positionSeconds, r.1)
  }

  lemma ReachableIsSeekable(f: Follower, c: Call)
    requires Measurable(f, c)
    ensures var (b, x) := (f.binding.value, c.state.positionSeconds);
      Reachable(f, c) <==> CanSeekTo(c.element.value, b.mediaAnchor + (x - b.lessonAnchor))
  {
    var (b, x, e) := (f.binding.value, c.state.positionSeconds, c.element.value);
    var target := b.mediaAnchor + (x - b.lessonAnchor);
    if e.ranges.Some? {
      forall r <- e.ranges.value
        ensures Ahead(b, x, r.0) <= 0.0 <= Ahead(b, x, r.1) <==> r.0 <= target <= r.1
      {
      }
    }
  }

  /** What one call reports of a measurable element: within 40 ms it is synced, within 150 ms drifting,
      else correcting; a seek it cannot make is degraded, and one it was told to make is correcting. */
  lemma MeasuredExactly(f: Follower, c: Call)
    requires Measurable(f, c)
    ensures var (off, status) := (Off(f, c), Called(f, c).health.status);
      var landing := f.settleUntilMs.Some? && c.nowMs < f.settleUntilMs.value;
      var seeking := !landing && (c.reason != OtherReason || !(-150.0 <= off <= 150.0));
      && (status.Degraded? <==> seeking && !Reachable(f, c))
      && (status.SyncedStatus? <==> !seeking && -40.0 <= off <= 40.0)
      && (status.Drifting? <==> !seeking && !(-40.0 <= off <= 40.0) && -150.0 <= off <= 150.0)
      && (status.Correcting? <==> (seeking && Reachable(f, c)) || (landing && !(-150.0 <= off <= 150.0)))
    ensures var h := Called(f, c).health;
      && h.sequence == f.sequence + 1 && Called(f, c).follower.sequence == f.sequence + 1
      && h.driftMs == (if h.status.Degraded? then None else Some(Off(f, c)))
  {
    TargetIs(f, c);
    ReachableIsSeekable(f, c);
  }

  /** The rate a measurable element is left with: with no seek landing and none to make, the transport's
      in the band, 5% less when it is ahead and 5% more when it is behind. */
  lemma RateExactly(f: Follower, c: Call)
    requires Measurable(f, c) && RateCommand !in c.element.value.refuses && Called(f, c).health.correction != Some(HardSeek)
    ensures var (off, rate, e) := (Off(f, c), c.state.playbackRate, Called(f, c).follower.element);
      var landing := f.settleUntilMs.Some? && c.nowMs < f.settleUntilMs.value;
      && e.Some?
      && e.value.currentTime == c.element.value.currentTime
      && e.value.playbackRate ==
           if landing || Called(f, c).health.status.Degraded? then c.element.value.playbackRate
           else if -40.0 <= off <= 40.0 then rate
           else if off > 0.0 then rate - rate / 20.0 else rate + rate / 20.0
  {
    TargetIs(f, c);
  }

  /** Whether the element is paused afterwards: outside the binding's range, and when the lesson rests, it is
      paused if it takes the pause; when the lesson plays, it plays if it takes that; otherwise it is left
      alone. */
  lemma PausedExactly(f: Follower, c: Call)
    requires c.element.Some?
    ensures var (e, g) := (c.element.value, Called(f, c).follower.element);
      var synchronized := f.mode.Synchronized? && f.binding.Some?;
      && g.Some?
      && g.value.paused ==
           if synchronized && !Speaks(f.binding.value, c.state.positionSeconds) then e.paused || PauseCommand !in e.refuses
           else if !Measurable(f, c) then e.paused
           else if c.state.playing then e.paused && PlayCommand in e.refuses
           else e.paused || PauseCommand !in e.refuses
  {
    if f.binding.Some? {
      TargetIs(f, c);
    }
  }

  /** A landing seek is over once the element is measured within 40 ms, or its 250 ms are up and the element
      is measured again without a seek. */
  lemma WindowExactly(f: Follower, c: Call)
    ensures var (g, reported) := (Called(f, c).follower, Called(f, c).health.correction == Some(HardSeek));
      var landing := f.settleUntilMs.Some? && c.nowMs < f.settleUntilMs.value;
      g.settleUntilMs ==
        if g.hardSeekCount != f.hardSeekCount then Some(c.nowMs + 250.0)
        else if !Measurable(f, c) then f.settleUntilMs
        else if landing && !(-40.0 <= Off(f, c) <= 40.0) then f.settleUntilMs
        else None
  {
    if f.binding.Some? {
      TargetIs(f, c);
    }
  }

  /** What a report says besides: where the element should be, where it is, and which correction was made. */
  lemma ToldExactly(f: Follower, c: Call)
    ensures var h := Called(f, c).health;
      && h.expected == (if Follows(f, c) then
           Some(f.binding.value.mediaAnchor + (c.state.positionSeconds - f.binding.value.lessonAnchor)) else None)
      && h.actual == (if f.mode.Synchronized? && f.binding.Some? && c.element.Some? then c.element.value.currentTime else None)
      && h.sequence == f.sequence + 1
    ensures Measurable(f, c) ==>
      var landing := f.settleUntilMs.Some? && c.nowMs < f.settleUntilMs.value;
      var seeking := !landing && (c.reason != OtherReason || !(-150.0 <= Off(f, c) <= 150.0));
      Called(f, c).health.correction ==
        if seeking then (if Reachable(f, c) then Some(HardSeek) else None)
        else if landing || -40.0 <= Off(f, c) <= 40.0 then Some(NoCorrection) else Some(Resample)
    ensures !Measurable(f, c) ==> Called(f, c).health.correction.None?
  {
    if f.binding.Some? {
      TargetIs(f, c);
    }
    if Measurable(f, c) {
      ReachableIsSeekable(f, c);
    }
  }
}
