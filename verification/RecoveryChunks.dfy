/** What one-chunk-at-a-time recovery adds up to: an exact partition of the frozen range. */
module RecoveryChunks {
  import opened Market
  import opened SessionGrid
  import opened Checkpoint
  import opened Schedule
  import opened Execution
  import opened Recovery

  // Pending bars are a suffix, and a chunk is a prefix of it.

  lemma {:induction false} AllPending(bars: seq<EligibleBar>, through: Instant)
    requires forall i :: 0 <= i < |bars| ==> bars[i].bar.completes > through
    ensures Pending(bars, through) == bars
  {
    if bars != [] { AllPending(bars[1..], through); }
  }

  lemma InOrderTail(bars: seq<EligibleBar>)
    requires InOrder(bars) && bars != []
    ensures InOrder(bars[1..])
  {
    forall i, j | 0 <= i < j < |bars[1..]| ensures bars[1..][i].bar.completes <= bars[1..][j].bar.start {
      assert bars[i + 1].bar.completes <= bars[j + 1].bar.start;
    }
  }

  lemma {:induction false} PendingIsSuffix(bars: seq<EligibleBar>, through: Instant) returns (j: nat)
    requires InOrder(bars)
    ensures j <= |bars| && Pending(bars, through) == bars[j..]
    ensures forall i :: 0 <= i < j ==> bars[i].bar.completes <= through
    ensures forall i :: j <= i < |bars| ==> bars[i].bar.completes > through
  {
    if bars == [] {
      j := 0;
    } else if bars[0].bar.completes > through {
      j := 0;
      AllPending(bars, through);
    } else {
      var rest := bars[1..];
      InOrderTail(bars);
      var k := PendingIsSuffix(rest, through);
      j := k + 1;
      assert bars[j..] == rest[k..];
      forall i | 0 <= i < j ensures bars[i].bar.completes <= through { assert i > 0 ==> bars[i] == rest[i - 1]; }
      forall i | j <= i < |bars| ensures bars[i].bar.completes > through { assert bars[i] == rest[i - 1]; }
    }
  }

  lemma PendingAfter(bars: seq<EligibleBar>, j: nat)
    requires InOrder(bars) && j < |bars|
    ensures Pending(bars, bars[j].bar.completes) == bars[j + 1..]
  {
    var k := PendingIsSuffix(bars, bars[j].bar.completes);
    assert j + 1 < |bars| ==> bars[j + 1].bar.completes > bars[j].bar.completes;
  }

  /** The bars of the first session are the leading ones. */
  lemma {:induction false} FirstSessionLeads(bars: seq<EligibleBar>)
    requires bars != [] && Grouped(bars)
    ensures var c := |OfKey(bars, bars[0].sessionKey)|;
            && 1 <= c <= |bars| && OfKey(bars, bars[0].sessionKey) == bars[..c]
            && forall i :: 0 <= i < |bars| ==> (bars[i].sessionKey == bars[0].sessionKey <==> i < c)
  {
    var n, key := |bars| - 1, bars[0].sessionKey;
    if n > 0 {
      var rest := bars[..n];
      GroupedPrefix(bars, n);
      FirstSessionLeads(rest);
      LastOfGroup(bars, |OfKey(rest, key)|);
    }
  }

  lemma GroupedPrefix(bars: seq<EligibleBar>, n: nat)
    requires Grouped(bars) && n <= |bars|
    ensures Grouped(bars[..n])
  {
    assert forall i :: 0 <= i < n ==> bars[..n][i] == bars[i];
  }

  /** Adding the last bar: it continues the first session only if everything before it belongs there. */
  lemma LastOfGroup(bars: seq<EligibleBar>, c: nat)
    requires |bars| > 1 && Grouped(bars) && 1 <= c < |bars|
    requires var rest := bars[..|bars| - 1];
             && OfKey(rest, bars[0].sessionKey) == rest[..c]
             && forall i :: 0 <= i < |rest| ==> (rest[i].sessionKey == bars[0].sessionKey <==> i < c)
    ensures var d := |OfKey(bars, bars[0].sessionKey)|;
            && 1 <= d <= |bars| && OfKey(bars, bars[0].sessionKey) == bars[..d]
            && forall i :: 0 <= i < |bars| ==> (bars[i].sessionKey == bars[0].sessionKey <==> i < d)
  {
    var n, key := |bars| - 1, bars[0].sessionKey;
    var rest := bars[..n];
    assert forall i :: 0 <= i < n ==> rest[i] == bars[i];
    if bars[n].sessionKey == key {
      assert forall i :: 0 < i < n ==> bars[i].sessionKey == key;
      assert rest[n - 1].sessionKey == key;
      assert bars == rest + [bars[n]] && rest[..c] == rest;
    }
  }

  lemma ChunkIsPrefix(pending: seq<EligibleBar>, max: nat)
    requires pending != [] && Grouped(pending) && max >= 1
    ensures var k := Min(max, |OfKey(pending, pending[0].sessionKey)|);
            1 <= k <= |pending| && Chunk(pending, max) == pending[..k]
  {
    var cut := pending[..Min(max, |pending|)];
    FirstSessionLeads(pending);
    FirstSessionLeads(cut);
    var c, d := |OfKey(pending, pending[0].sessionKey)|, |OfKey(cut, pending[0].sessionKey)|;
    assert cut[d - 1] == pending[d - 1];
    assert d < |cut| ==> cut[d] == pending[d];
  }

  lemma {:induction false} OfKeyConcat(x: seq<EligibleBar>, y: seq<EligibleBar>, key: Option<Instant>)
    ensures OfKey(x + y, key) == OfKey(x, key) + OfKey(y, key)
    decreases y
  {
    if y == [] {
      assert x + y == x;
    } else {
      assert (x + y)[..|x + y| - 1] == x + y[..|y| - 1];
      OfKeyConcat(x, y[..|y| - 1], key);
    }
  }

  lemma {:induction false} OfKeyUniform(bars: seq<EligibleBar>, key: Option<Instant>, own: Option<Instant>)
    requires forall i :: 0 <= i < |bars| ==> bars[i].sessionKey == own
    ensures |OfKey(bars, key)| == if key == own then |bars| else 0
  {
    if bars != [] { OfKeyUniform(bars[..|bars| - 1], key, own); }
  }

  // One step of the iteration, on the enumerated bars.

  /** The first `j` bars are behind `through` and the next chunk is the `k` bars after them. */
  ghost predicate NextSlice(bars: seq<EligibleBar>, through: Instant, max: nat, j: nat, k: nat) {
    && j < j + k <= |bars| && Pending(bars, through) == bars[j..] && through < bars[j].bar.completes
    && (forall i :: 0 <= i < j ==> bars[i].bar.completes <= through)
    && (forall i :: j <= i < j + k ==> bars[i].sessionKey == bars[j].sessionKey)
    && k == Min(max, |OfKey(bars[j..], bars[j].sessionKey)|)
  }

  function SliceRange(bars: seq<EligibleBar>, j: nat, k: nat): TimeRange
    requires j < j + k <= |bars|
  {
    TimeRange(bars[j].bar.start, bars[j + k - 1].bar.completes)
  }

  lemma GroupedSuffix(bars: seq<EligibleBar>, j: nat)
    requires Grouped(bars) && j <= |bars|
    ensures Grouped(bars[j..])
  {
    assert forall i :: 0 <= i < |bars[j..]| ==> bars[j..][i] == bars[i + j];
  }

  lemma NextIsSlice(bars: seq<EligibleBar>, through: Instant, max: nat) returns (j: nat, k: nat)
    requires InOrder(bars) && Grouped(bars) && max >= 1 && NextRange(bars, through, max).Some?
    ensures NextSlice(bars, through, max, j, k)
    ensures NextRange(bars, through, max) == Some(SliceRange(bars, j, k))
  {
    j := PendingIsSuffix(bars, through);
    var pending := bars[j..];
    GroupedSuffix(bars, j);
    ChunkIsPrefix(pending, max);
    FirstSessionLeads(pending);
    k := Min(max, |OfKey(pending, pending[0].sessionKey)|);
    assert forall i :: j <= i < |bars| ==> bars[i] == pending[i - j];
    assert Chunk(pending, max)[k - 1] == bars[j + k - 1];
  }

  lemma {:induction false} SliceGone(bars: seq<EligibleBar>, j: nat, k: nat)
    requires InOrder(bars) && j < j + k <= |bars|
    ensures Pending(bars, SliceRange(bars, j, k).end) == bars[j + k..]
  {
    PendingAfter(bars, j + k - 1);
  }

  function InRange(bars: seq<EligibleBar>, range: TimeRange): seq<EligibleBar> {
    if bars == [] then []
    else (if range.start <= bars[0].bar.start && bars[0].bar.completes <= range.end then [bars[0]] else [])
         + InRange(bars[1..], range)
  }

  lemma {:induction false} InRangeConcat(x: seq<EligibleBar>, y: seq<EligibleBar>, range: TimeRange)
    ensures InRange(x + y, range) == InRange(x, range) + InRange(y, range)
  {
    if x == [] {
      assert x + y == y;
    } else {
      assert (x + y)[1..] == x[1..] + y;
      InRangeConcat(x[1..], y, range);
    }
  }

  lemma {:induction false} NoneInRange(bars: seq<EligibleBar>, range: TimeRange)
    requires forall i :: 0 <= i < |bars| ==> bars[i].bar.start < range.start || bars[i].bar.completes > range.end
    ensures InRange(bars, range) == []
  {
    if bars != [] { NoneInRange(bars[1..], range); }
  }

  lemma {:induction false} AllInRange(bars: seq<EligibleBar>, range: TimeRange)
    requires forall i :: 0 <= i < |bars| ==> range.start <= bars[i].bar.start && bars[i].bar.completes <= range.end
    ensures InRange(bars, range) == bars
  {
    if bars != [] { AllInRange(bars[1..], range); }
  }

  lemma {:induction false} AroundSlice(bars: seq<EligibleBar>, j: nat, k: nat, i: nat)
    requires InOrder(bars) && j < j + k <= |bars| && i < |bars|
    ensures var range := SliceRange(bars, j, k);
            range.start <= bars[i].bar.start && bars[i].bar.completes <= range.end <==> j <= i < j + k
  {
  }

  lemma SliceInRange(bars: seq<EligibleBar>, j: nat, k: nat)
    requires InOrder(bars) && j < j + k <= |bars|
    ensures InRange(bars, SliceRange(bars, j, k)) == bars[j..j + k]
  {
    var range := SliceRange(bars, j, k);
    forall i | 0 <= i < |bars|
      ensures range.start <= bars[i].bar.start && bars[i].bar.completes <= range.end <==> j <= i < j + k
    {
      AroundSlice(bars, j, k, i);
    }
    ThreeParts(bars, j, j + k, range);
  }

  lemma ThreeParts(bars: seq<EligibleBar>, a: nat, b: nat, range: TimeRange)
    requires a <= b <= |bars|
    requires forall i :: 0 <= i < |bars|
               ==> (range.start <= bars[i].bar.start && bars[i].bar.completes <= range.end <==> a <= i < b)
    ensures InRange(bars, range) == bars[a..b]
  {
    OutsideSlice(bars, 0, a, range);
    InsideSlice(bars, a, b, range);
    OutsideSlice(bars, b, |bars|, range);
    JoinThree(bars[0..a], bars[a..b], bars[b..|bars|], range);
    assert bars[0..a] + bars[a..b] + bars[b..|bars|] == bars;
  }

  lemma OutsideSlice(bars: seq<EligibleBar>, lo: nat, hi: nat, range: TimeRange)
    requires lo <= hi <= |bars|
    requires forall i :: lo <= i < hi ==> !(range.start <= bars[i].bar.start && bars[i].bar.completes <= range.end)
    ensures InRange(bars[lo..hi], range) == []
  {
    NoneInRange(bars[lo..hi], range);
  }

  lemma InsideSlice(bars: seq<EligibleBar>, lo: nat, hi: nat, range: TimeRange)
    requires lo <= hi <= |bars|
    requires forall i :: lo <= i < hi ==> range.start <= bars[i].bar.start && bars[i].bar.completes <= range.end
    ensures InRange(bars[lo..hi], range) == bars[lo..hi]
  {
    AllInRange(bars[lo..hi], range);
  }

  lemma JoinThree(x: seq<EligibleBar>, y: seq<EligibleBar>, z: seq<EligibleBar>, range: TimeRange)
    ensures InRange(x + y + z, range) == InRange(x, range) + InRange(y, range) + InRange(z, range)
  {
    InRangeConcat(x, y, range);
    InRangeConcat(x + y, z, range);
  }

  ghost predicate OneBoundedSession(chunk: seq<EligibleBar>, max: int) {
    1 <= |chunk| <= max && forall i :: 0 <= i < |chunk| ==> chunk[i].sessionKey == chunk[0].sessionKey
  }

  lemma SliceLeads(bars: seq<EligibleBar>, j: nat, k: nat)
    requires j < j + k <= |bars|
    requires forall i :: j <= i < j + k ==> bars[i].sessionKey == bars[j].sessionKey
    ensures bars[j..] == bars[j..j + k] + bars[j + k..] && bars[j..][0] == bars[j]
    ensures var c := bars[j..j + k]; forall i :: 0 <= i < |c| ==> c[i].sessionKey == c[0].sessionKey
  {
  }

  /** A planned chunk: one bounded piece of one session, the head of what is pending; committing it leaves
      exactly the rest. */
  lemma ChunkStep(bars: seq<EligibleBar>, through: Instant, max: nat)
    requires InOrder(bars) && Grouped(bars) && max >= 1 && NextRange(bars, through, max).Some?
    ensures var range, pending := NextRange(bars, through, max).value, Pending(bars, through);
            && pending == InRange(bars, range) + Pending(bars, range.end)
            && OneBoundedSession(InRange(bars, range), max)
            && |InRange(bars, range)| == Min(max, |OfKey(pending, pending[0].sessionKey)|)
  {
    var j, k := NextIsSlice(bars, through, max);
    SliceGone(bars, j, k);
    SliceInRange(bars, j, k);
    SliceLeads(bars, j, k);
  }

  /** All chunk ranges, each planned after the one before it was committed. */
  ghost function Ranges(bars: seq<EligibleBar>, through: Instant, max: nat): seq<TimeRange>
    requires InOrder(bars) && Grouped(bars) && max >= 1
    decreases |Pending(bars, through)|
  {
    var next := NextRange(bars, through, max);
    if next.None? then []
    else
      ChunkStep(bars, through, max);
      [next.value] + Ranges(bars, next.value.end, max)
  }

  /** The eligible bars of every range, one range after the other. */
  function Gathered(bars: seq<EligibleBar>, ranges: seq<TimeRange>): seq<EligibleBar> {
    if ranges == [] then [] else InRange(bars, ranges[0]) + Gathered(bars, ranges[1..])
  }

  /** The chunks hold, in order, exactly the pending bars; each is one bounded piece of one session. */
  lemma {:induction false} RangesPartition(bars: seq<EligibleBar>, through: Instant, max: nat)
    requires InOrder(bars) && Grouped(bars) && max >= 1
    ensures Gathered(bars, Ranges(bars, through, max)) == Pending(bars, through)
    ensures forall range :: range in Ranges(bars, through, max) ==> OneBoundedSession(InRange(bars, range), max)
    decreases |Pending(bars, through)|
  {
    var next := NextRange(bars, through, max);
    if next.Some? {
      ChunkStep(bars, through, max);
      RangesPartition(bars, next.value.end, max);
    }
  }

  // How many chunks there are.

  function CeilDiv(n: nat, d: nat): nat
    requires d >= 1
  {
    (n + d - 1) / d
  }

  function ChunkTotal(keys: seq<Option<Instant>>, pending: seq<EligibleBar>, max: nat): nat
    requires max >= 1
  {
    if keys == [] then 0 else CeilDiv(|OfKey(pending, keys[0])|, max) + ChunkTotal(keys[1..], pending, max)
  }

  lemma MoreBatches(p: int, q: int, d: int)
    requires d >= 1
    ensures p > q ==> p * d >= q * d + d
  {
    if p > q {
      var more := p - q - 1;
      assert more * d >= 0;
      assert p * d == (more + q + 1) * d == more * d + q * d + d;
    }
  }

  lemma Quotient(x: int, d: int, q: int)
    requires d >= 1 && q * d <= x < q * d + d
    ensures x / d == q
  {
    var p := x / d;
    assert x == p * d + x % d;
    MoreBatches(p, q, d);
    MoreBatches(q, p, d);
  }

  /** Taking `min(n, d)` items out of a non-empty pile saves exactly one batch. */
  lemma OneBatchLess(n: nat, d: nat)
    requires n >= 1 && d >= 1
    ensures CeilDiv(n, d) == CeilDiv(n - Min(n, d), d) + 1
  {
    if n <= d {
      Quotient(n + d - 1, d, 1);
      Quotient(d - 1, d, 0);
    } else {
      var q := (n - 1) / d;
      assert n - 1 == q * d + (n - 1) % d;
      assert (q + 1) * d == q * d + d;
      Quotient(n + d - 1, d, q + 1);
    }
  }

  ghost predicate Distinct(keys: seq<Option<Instant>>) {
    forall i, j :: 0 <= i < j < |keys| ==> keys[i] != keys[j]
  }

  /** Taking the next chunk saves one batch of its own session and none of any other. */
  lemma KeyStep(key: Option<Instant>, pending: seq<EligibleBar>, k: nat, max: nat)
    requires max >= 1 && 1 <= k <= |pending|
    requires forall i :: 0 <= i < k ==> pending[i].sessionKey == pending[0].sessionKey
    requires k == Min(max, |OfKey(pending, pending[0].sessionKey)|)
    ensures CeilDiv(|OfKey(pending, key)|, max)
         == CeilDiv(|OfKey(pending[k..], key)|, max) + (if key == pending[0].sessionKey then 1 else 0)
  {
    assert pending == pending[..k] + pending[k..];
    OfKeyConcat(pending[..k], pending[k..], key);
    OfKeyUniform(pending[..k], key, pending[0].sessionKey);
    if key == pending[0].sessionKey { OneBatchLess(|OfKey(pending, key)|, max); }
  }

  lemma {:induction false} TotalStep(keys: seq<Option<Instant>>, pending: seq<EligibleBar>, k: nat, max: nat)
    requires max >= 1 && Distinct(keys) && 1 <= k <= |pending|
    requires forall i :: 0 <= i < k ==> pending[i].sessionKey == pending[0].sessionKey
    requires k == Min(max, |OfKey(pending, pending[0].sessionKey)|)
    ensures ChunkTotal(keys, pending, max)
         == ChunkTotal(keys, pending[k..], max) + (if pending[0].sessionKey in keys then 1 else 0)
  {
    if keys != [] {
      TotalStep(keys[1..], pending, k, max);
      KeyStep(keys[0], pending, k, max);
      assert keys == [keys[0]] + keys[1..];
      assert forall i :: 0 <= i < |keys[1..]| ==> keys[1..][i] != keys[0];
    }
  }

  lemma {:induction false} TotalOfNothing(keys: seq<Option<Instant>>, max: nat)
    requires max >= 1
    ensures ChunkTotal(keys, [], max) == 0
  {
    Quotient(max - 1, max, 0);
    if keys != [] { TotalOfNothing(keys[1..], max); }
  }

  lemma {:induction false} PendingKey(bars: seq<EligibleBar>, through: Instant, keys: seq<Option<Instant>>)
    requires Pending(bars, through) != [] && forall e :: e in bars ==> e.sessionKey in keys
    ensures Pending(bars, through)[0].sessionKey in keys
  {
    if bars[0].bar.completes <= through { PendingKey(bars[1..], through, keys); }
  }

  lemma {:induction false} RangesCount(bars: seq<EligibleBar>, through: Instant, max: nat, keys: seq<Option<Instant>>)
    requires InOrder(bars) && Grouped(bars) && max >= 1
    requires Distinct(keys) && forall e :: e in bars ==> e.sessionKey in keys
    ensures |Ranges(bars, through, max)| == ChunkTotal(keys, Pending(bars, through), max)
    decreases |Pending(bars, through)|
  {
    var next := NextRange(bars, through, max);
    if next.None? {
      TotalOfNothing(keys, max);
    } else {
      ChunkStep(bars, through, max);
      RangesCount(bars, next.value.end, max, keys);
      var pending, chunk := Pending(bars, through), InRange(bars, next.value);
      assert pending[|chunk|..] == Pending(bars, next.value.end);
      PendingKey(bars, through, keys);
      TotalStep(keys, pending, |chunk|, max);
    }
  }

  // The planner, called again after every commit.

  /** The enumerated bars behind an accepted request. */
  function BarsFor(request: Request, calendar: Calendar): seq<EligibleBar>
    requires EligibleBars(request, calendar).Ok?
  {
    EligibleBars(request, calendar).value
  }

  ghost predicate Accepted(request: Request, calendar: Calendar) {
    PlanNext(request, calendar).Ok?
  }

  /** An accepted request is planned from its bars: no chunk exactly when nothing is pending. */
  lemma AcceptedPlans(request: Request, calendar: Calendar)
    requires Accepted(request, calendar)
    ensures EligibleBars(request, calendar).Ok? && request.maxBarsPerJob >= 1
            && request.checkpointBefore.completeThrough.Some?
    ensures Arranged(BarsFor(request, calendar), request.recoveryRange)
    ensures var next := NextRange(BarsFor(request, calendar), request.checkpointBefore.completeThrough.value,
                                  request.maxBarsPerJob);
            PlanNext(request, calendar) == Ok(if next.Some? then Some(JobFor(request, next.value)) else None)
  {
    EligibleBarsSpec(request, calendar);
    var bars, through := BarsFor(request, calendar), request.checkpointBefore.completeThrough.value;
    var j := PendingIsSuffix(bars, through);
  }

  /** The request after the chunk ending at `end` was committed is accepted, over the same bars. */
  lemma CommittedIsAccepted(request: Request, calendar: Calendar, end: Instant)
    requires Accepted(request, calendar)
    requires request.recoveryRange.start <= end <= request.recoveryRange.end
    requires exists i :: 0 <= i < |BarsFor(request, calendar)| && BarsFor(request, calendar)[i].bar.completes == end
    ensures EligibleBars(request.CommittedAt(end), calendar) == EligibleBars(request, calendar)
    ensures Accepted(request.CommittedAt(end), calendar)
  {
    assert SessionsFor(request.CommittedAt(end), calendar) == SessionsFor(request, calendar);
  }

  ghost function PendingOf(request: Request, calendar: Calendar): seq<EligibleBar> {
    if Accepted(request, calendar) then
      AcceptedPlans(request, calendar);
      Pending(BarsFor(request, calendar), request.checkpointBefore.completeThrough.value)
    else []
  }

  /** One commit: what is accepted stays accepted, and strictly less is pending. */
  lemma CommitStep(request: Request, calendar: Calendar)
    requires Accepted(request, calendar) && PlanNext(request, calendar).value.Some?
    ensures var after := request.CommittedAt(PlanNext(request, calendar).value.value.requestedRange.end);
            && Accepted(after, calendar) && EligibleBars(after, calendar) == EligibleBars(request, calendar)
            && |PendingOf(after, calendar)| < |PendingOf(request, calendar)|
  {
    AcceptedPlans(request, calendar);
    var bars, through := BarsFor(request, calendar), request.checkpointBefore.completeThrough.value;
    var j, k := NextIsSlice(bars, through, request.maxBarsPerJob);
    ChunkStep(bars, through, request.maxBarsPerJob);
    var end := SliceRange(bars, j, k).end;
    assert bars[j + k - 1].bar.completes == end;
    CommittedIsAccepted(request, calendar, end);
  }

  /** Plan, commit the chunk, plan again: the jobs. */
  ghost function Jobs(request: Request, calendar: Calendar): seq<Job>
    decreases |PendingOf(request, calendar)|
  {
    if !Accepted(request, calendar) || PlanNext(request, calendar).value.None? then []
    else
      CommitStep(request, calendar);
      var job := PlanNext(request, calendar).value.value;
      [job] + Jobs(request.CommittedAt(job.requestedRange.end), calendar)
  }

  /** The request the iteration stops at. */
  ghost function Final(request: Request, calendar: Calendar): Request
    decreases |PendingOf(request, calendar)|
  {
    if !Accepted(request, calendar) || PlanNext(request, calendar).value.None? then request
    else
      CommitStep(request, calendar);
      Final(request.CommittedAt(PlanNext(request, calendar).value.value.requestedRange.end), calendar)
  }

  function RangesOfJobs(jobs: seq<Job>): seq<TimeRange> {
    if jobs == [] then [] else [jobs[0].requestedRange] + RangesOfJobs(jobs[1..])
  }

  /** The iteration never meets an error, stops, and plans exactly the chunk ranges of the bars. */
  lemma {:induction false} JobsFollowRanges(request: Request, calendar: Calendar)
    requires Accepted(request, calendar)
    ensures PlanNext(Final(request, calendar), calendar) == Ok(None)
    ensures EligibleBars(request, calendar).Ok? && request.checkpointBefore.completeThrough.Some?
            && request.maxBarsPerJob >= 1
    ensures InOrder(BarsFor(request, calendar)) && Grouped(BarsFor(request, calendar))
    ensures RangesOfJobs(Jobs(request, calendar))
         == Ranges(BarsFor(request, calendar), request.checkpointBefore.completeThrough.value, request.maxBarsPerJob)
    decreases |PendingOf(request, calendar)|
  {
    AcceptedPlans(request, calendar);
    if PlanNext(request, calendar).value.Some? {
      CommitStep(request, calendar);
      var job := PlanNext(request, calendar).value.value;
      JobsFollowRanges(request.CommittedAt(job.requestedRange.end), calendar);
      assert Jobs(request, calendar)[1..] == Jobs(request.CommittedAt(job.requestedRange.end), calendar);
    }
  }

  /** The session keys of the frozen range. */
  function Keys(request: Request, calendar: Calendar): seq<Option<Instant>> {
    if request.instrument.route == CryptoBars then [None] else Openings(SelectedSessions(request, calendar))
  }

  function Openings(sessions: seq<Session>): seq<Option<Instant>> {
    if sessions == [] then [] else [Some(sessions[0].opensAt)] + Openings(sessions[1..])
  }

  lemma {:induction false} OpeningsHold(sessions: seq<Session>)
    ensures forall key :: key in Openings(sessions) <==> exists s :: s in sessions && key == Some(s.opensAt)
  {
    if sessions != [] {
      OpeningsHold(sessions[1..]);
      assert sessions == [sessions[0]] + sessions[1..];
    }
  }

  lemma {:induction false} OpeningsDistinct(sessions: seq<Session>, revision: string)
    requires SessionsFit(sessions, revision)
    ensures Distinct(Openings(sessions))
  {
    if sessions != [] {
      var rest := sessions[1..];
      forall i | 0 <= i < |rest|
        ensures SessionFits(rest, revision, i) { assert SessionFits(sessions, revision, i + 1); }
      OpeningsDistinct(rest, revision);
      OpeningsHold(rest);
      assert SessionFits(sessions, revision, 0);
      forall key | key in Openings(rest) ensures key != Some(sessions[0].opensAt) {
        var o :| o in rest && key == Some(o.opensAt);
        LaterSession(sessions, revision, o);
      }
      var keys, others := Openings(sessions), Openings(rest);
      assert keys == [Some(sessions[0].opensAt)] + others;
      forall i, j | 0 <= i < j < |keys| ensures keys[i] != keys[j] {
        assert keys[j] == others[j - 1] && others[j - 1] in others;
        assert i > 0 ==> keys[i] == others[i - 1];
      }
    }
  }

  lemma OpeningsCover(g: Grid, sessions: seq<Session>, revision: string, range: TimeRange)
    requires g.route == StockBars && SessionsFit(sessions, revision)
    requires forall s :: s in sessions ==> InScope(s.kind, g.scope)
    ensures forall e :: e in SessionsEligible(g, sessions, range) ==> e.sessionKey in Openings(sessions)
  {
    SessionsEligibleSpec(g, sessions, revision, range);
    OpeningsHold(sessions);
  }

  lemma KeysSpec(request: Request, calendar: Calendar)
    requires EligibleBars(request, calendar).Ok?
    ensures Distinct(Keys(request, calendar))
    ensures forall e :: e in BarsFor(request, calendar) ==> e.sessionKey in Keys(request, calendar)
  {
    if request.instrument.route == StockBars {
      var sessions := SelectedSessions(request, calendar);
      SelectedInScope(request, calendar);
      OpeningsDistinct(sessions, request.calendarRevision);
      OpeningsCover(request.Grid(calendar), sessions, request.calendarRevision, request.recoveryRange);
    }
  }

  /** Recovery chunking is an exact partition.  Planning and committing again and again never meets an
      error and stops; the chunks, in the order planned, hold exactly the pending bars; each is non-empty,
      inside one session and at most `maxBarsPerJob` long; and their number is the sum over the sessions
      of ceil(pending / maxBarsPerJob). */
  lemma ChunksPartition(request: Request, calendar: Calendar)
    requires Accepted(request, calendar)
    ensures PlanNext(Final(request, calendar), calendar) == Ok(None)
    ensures EligibleBars(request, calendar).Ok? && request.maxBarsPerJob >= 1
    ensures Gathered(BarsFor(request, calendar), RangesOfJobs(Jobs(request, calendar))) == PendingOf(request, calendar)
    ensures forall range :: range in RangesOfJobs(Jobs(request, calendar))
              ==> OneBoundedSession(InRange(BarsFor(request, calendar), range), request.maxBarsPerJob)
    ensures |RangesOfJobs(Jobs(request, calendar))|
         == ChunkTotal(Keys(request, calendar), PendingOf(request, calendar), request.maxBarsPerJob)
  {
    JobsFollowRanges(request, calendar);
    var bars, through, max := BarsFor(request, calendar), request.checkpointBefore.completeThrough.value,
                              request.maxBarsPerJob;
    RangesPartition(bars, through, max);
    KeysSpec(request, calendar);
    RangesCount(bars, through, max, Keys(request, calendar));
  }

  // The two enumerations agree, so a chunk commits exactly what was frozen.

  function BarsOf(bars: seq<EligibleBar>): (r: seq<Bar>) {
    if bars == [] then [] else [bars[0].bar] + BarsOf(bars[1..])
  }

  lemma {:induction false} BarsOfSpec(bars: seq<EligibleBar>)
    requires InOrder(bars)
    ensures Ordered(BarsOf(bars)) && |BarsOf(bars)| == |bars|
    ensures forall i :: 0 <= i < |bars| ==> BarsOf(bars)[i] == bars[i].bar
  {
    if bars != [] { BarsOfSpec(bars[1..]); }
  }

  /** Two bars of one daily session are one bar. */
  lemma DailyChunkIsOneBar(request: Request, calendar: Calendar, i: nat, j: nat)
    requires EligibleBars(request, calendar).Ok? && request.Grid(calendar).DailyEquity()
    requires i <= j < |BarsFor(request, calendar)|
    requires BarsFor(request, calendar)[i].sessionKey == BarsFor(request, calendar)[j].sessionKey
    ensures i == j
  {
    EligibleBarsSpec(request, calendar);
    DailyKeyIsStart(request, calendar, i);
    DailyKeyIsStart(request, calendar, j);
  }

  lemma DailyKeyIsStart(request: Request, calendar: Calendar, i: nat)
    requires EligibleBars(request, calendar).Ok? && request.Grid(calendar).DailyEquity()
    requires i < |BarsFor(request, calendar)|
    ensures BarsFor(request, calendar)[i].sessionKey == Some(BarsFor(request, calendar)[i].bar.start)
  {
    var sessions, range := SelectedSessions(request, calendar), request.recoveryRange;
    SessionsEligibleSpec(request.Grid(calendar), sessions, request.calendarRevision, range);
    assert EligibleIn(request.Grid(calendar), sessions, range, BarsFor(request, calendar)[i]);
  }

  /** `bars` are exactly the eligible bars of a range of the grid. */
  ghost predicate Enumerates(g: Grid, bars: seq<EligibleBar>, range: TimeRange) {
    Arranged(bars, range)
    && forall b :: Holds(bars, b) <==> g.Eligible(b) && range.start <= b.start && b.completes <= range.end
  }

  lemma SliceIsExpected(g: Grid, bars: seq<EligibleBar>, range: TimeRange, j: nat, k: nat, i: nat)
    requires g.Wf() && Enumerates(g, bars, range) && j <= i < j + k <= |bars|
    ensures g.Eligible(bars[i].bar) && g.Requested(bars[i].bar, SliceRange(bars, j, k))
  {
    assert bars[i] in bars && Holds(bars, bars[i].bar);
    assert bars[j].bar.start <= bars[i].bar.start && bars[i].bar.completes <= bars[j + k - 1].bar.completes;
  }

  lemma ExpectedIsInSlice(g: Grid, bars: seq<EligibleBar>, range: TimeRange, j: nat, k: nat, b: Bar)
    returns (i: nat)
    requires g.Wf() && Enumerates(g, bars, range) && j < j + k <= |bars| && (g.DailyEquity() ==> k == 1)
    requires g.Eligible(b) && g.Requested(b, SliceRange(bars, j, k))
    ensures j <= i < j + k && bars[i].bar == b
  {
    EligibleNonEmpty(g, b);
    if g.DailyEquity() {
      assert bars[j] in bars && Holds(bars, bars[j].bar);
      EligibleDisjoint(g, b, bars[j].bar);
      i := j;
    } else {
      assert range.start <= bars[j].bar.start && bars[j + k - 1].bar.completes <= range.end;
      assert Holds(bars, b);
      i :| 0 <= i < |bars| && bars[i].bar == b;
    }
  }

  lemma SliceMembers(g: Grid, bars: seq<EligibleBar>, range: TimeRange, j: nat, k: nat, b: Bar)
    requires g.Wf() && Enumerates(g, bars, range) && j < j + k <= |bars| && (g.DailyEquity() ==> k == 1)
    ensures g.Eligible(b) && g.Requested(b, SliceRange(bars, j, k)) <==> exists i :: j <= i < j + k && bars[i].bar == b
  {
    if g.Eligible(b) && g.Requested(b, SliceRange(bars, j, k)) {
      var i := ExpectedIsInSlice(g, bars, range, j, k, b);
    }
    if i :| j <= i < j + k && bars[i].bar == b {
      SliceIsExpected(g, bars, range, j, k, i);
    }
  }

  lemma SliceMatchesGrid(g: Grid, bars: seq<EligibleBar>, range: TimeRange, j: nat, k: nat)
    requires g.Wf() && Enumerates(g, bars, range) && j < j + k <= |bars| && (g.DailyEquity() ==> k == 1)
    ensures Expected(g, SliceRange(bars, j, k)) == BarsOf(bars[j..j + k])
  {
    var slice, wanted := bars[j..j + k], Expected(g, SliceRange(bars, j, k));
    ExpectedSpec(g, SliceRange(bars, j, k));
    BarsOfSpec(slice);
    forall b ensures b in wanted <==> b in BarsOf(slice) {
      SliceMembers(g, bars, range, j, k, b);
      SliceHolds(bars, j, k, b);
    }
    OrderedUnique(wanted, BarsOf(slice));
  }

  lemma SliceHolds(bars: seq<EligibleBar>, j: nat, k: nat, b: Bar)
    requires InOrder(bars) && j < j + k <= |bars|
    ensures b in BarsOf(bars[j..j + k]) <==> exists i :: j <= i < j + k && bars[i].bar == b
  {
    var slice := bars[j..j + k];
    BarsOfSpec(slice);
    if b in BarsOf(slice) {
      var i :| 0 <= i < |slice| && BarsOf(slice)[i] == b;
      assert bars[j + i].bar == b;
    }
    if i :| j <= i < j + k && bars[i].bar == b {
      assert BarsOf(slice)[i - j] == b;
    }
  }

  /** Where a planned job sits in the enumeration. */
  lemma JobIsSlice(request: Request, calendar: Calendar, job: Job)
    returns (bars: seq<EligibleBar>, j: nat, k: nat)
    requires PlanNext(request, calendar) == Ok(Some(job))
    ensures EligibleBars(request, calendar) == Ok(bars)
            && Enumerates(request.Grid(calendar), bars, request.recoveryRange)
    ensures j < j + k <= |bars| && job.requestedRange == SliceRange(bars, j, k)
    ensures request.Grid(calendar).DailyEquity() ==> k == 1
    ensures request.checkpointBefore.completeThrough.Some?
            && request.checkpointBefore.completeThrough.value < bars[j].bar.completes
  {
    AcceptedPlans(request, calendar);
    EligibleBarsSpec(request, calendar);
    bars := BarsFor(request, calendar);
    j, k := NextIsSlice(bars, request.checkpointBefore.completeThrough.value, request.maxBarsPerJob);
    if request.Grid(calendar).DailyEquity() { DailyChunkIsOneBar(request, calendar, j, j + k - 1); }
  }

  /** The next chunk starts no later than any pending bar. */
  lemma FirstPending(bars: seq<EligibleBar>, through: Instant, max: nat, m: nat)
    requires InOrder(bars) && Grouped(bars) && max >= 1 && NextRange(bars, through, max).Some?
    requires m < |bars| && through < bars[m].bar.completes
    ensures NextRange(bars, through, max).value.start <= bars[m].bar.start
  {
    var j, k := NextIsSlice(bars, through, max);
  }

  lemma AcceptedBounds(request: Request, calendar: Calendar)
    requires PlanNext(request, calendar).Ok?
    ensures request.checkpointBefore.completeThrough.Some?
    ensures request.recoveryRange.start <= request.checkpointBefore.completeThrough.value <= request.recoveryRange.end
  {
  }

  /** A bar of the frozen range past the boundary starts no earlier than the next chunk. */
  lemma PendingIsAhead(request: Request, calendar: Calendar, job: Job, b: Bar)
    requires PlanNext(request, calendar) == Ok(Some(job)) && request.Grid(calendar).Eligible(b)
    requires request.recoveryRange.start <= b.start && b.completes <= request.recoveryRange.end
    requires request.checkpointBefore.completeThrough.Some?
    requires request.checkpointBefore.completeThrough.value < b.completes
    ensures job.requestedRange.start <= b.start
  {
    AcceptedPlans(request, calendar);
    EligibleBarsSpec(request, calendar);
    var bars := BarsFor(request, calendar);
    assert Holds(bars, b);
    var m :| 0 <= m < |bars| && bars[m].bar == b;
    FirstPending(bars, request.checkpointBefore.completeThrough.value, request.maxBarsPerJob, m);
  }

  /** Behind the next chunk recovery leaves nothing: a bar that the job's range passes over is behind the boundary. */
  lemma RecoveryLeavesNoHole(request: Request, calendar: Calendar, job: Job, e: Bar, b: Bar)
    requires WellFormedSessions(calendar.sessions) && PlanNext(request, calendar) == Ok(Some(job))
    requires var g := request.Grid(calendar);
             && g.Eligible(e) && request.checkpointBefore.completeThrough == Some(e.completes)
             && g.Eligible(b) && b.completes <= job.requestedRange.end && !g.Requested(b, job.requestedRange)
    ensures b.completes <= request.checkpointBefore.completeThrough.value
  {
    var g := request.Grid(calendar);
    var bars, j, k := JobIsSlice(request, calendar, job);
    assert bars[j] in bars && Holds(bars, bars[j].bar);
    EligibleNonEmpty(g, b);
    EligibleNonEmpty(g, e);
    EligibleNonEmpty(g, bars[j].bar);
    EligibleDisjoint(g, b, bars[j].bar);
    EligibleDisjoint(g, b, e);
    AcceptedBounds(request, calendar);
    if e.completes < b.completes { PendingIsAhead(request, calendar, job, b); }
  }

  lemma JobCarriesRequest(request: Request, calendar: Calendar, job: Job)
    requires PlanNext(request, calendar) == Ok(Some(job))
    ensures job == JobFor(request, job.requestedRange) && request.coverageKey != ""
  {
  }

  /** On every planned chunk the executor expects exactly the chunk's bars. */
  lemma GridsAgree(request: Request, calendar: Calendar, job: Job)
    requires WellFormedSessions(calendar.sessions) && PlanNext(request, calendar) == Ok(Some(job))
    ensures EligibleBars(request, calendar).Ok?
    ensures Expected(request.Grid(calendar),
                     job.requestedRange) == BarsOf(InRange(BarsFor(request, calendar), job.requestedRange))
  {
    var bars, j, k := JobIsSlice(request, calendar, job);
    SliceInRange(bars, j, k);
    SliceMatchesGrid(request.Grid(calendar), bars, request.recoveryRange, j, k);
  }

  lemma LastOfSlice(bars: seq<EligibleBar>, j: nat, k: nat)
    requires InOrder(bars) && j < j + k <= |bars|
    ensures var slice := BarsOf(bars[j..j + k]);
            slice != [] && slice[|slice| - 1].completes == SliceRange(bars, j, k).end >= bars[j].bar.completes
  {
    BarsOfSpec(bars[j..j + k]);
    assert bars[j..j + k][k - 1] == bars[j + k - 1];
  }

  /** A job whose range ends, ahead of the checkpoint, with the last bar it expects. */
  ghost predicate EndsAhead(job: Job, g: Grid, before: StoredCheckpoint) {
    var expected := Expected(g, job.requestedRange);
    && before.completeThrough.Some? && before.completeThrough.value < job.requestedRange.end
    && expected != [] && expected[|expected| - 1].completes == job.requestedRange.end
  }

  lemma JobEndsAhead(request: Request, calendar: Calendar, job: Job)
    requires WellFormedSessions(calendar.sessions) && PlanNext(request, calendar) == Ok(Some(job))
    ensures EndsAhead(job, request.Grid(calendar), request.checkpointBefore)
  {
    var bars, j, k := JobIsSlice(request, calendar, job);
    SliceMatchesGrid(request.Grid(calendar), bars, request.recoveryRange, j, k);
    LastOfSlice(bars, j, k);
  }

  /** What a proposal says when everything up to the end of its range was served. */
  lemma ServedToTheEnd(job: Job, g: Grid, options: Options, before: StoredCheckpoint,
                       have: set<Instant>)
    requires g.Wf() && EndsAhead(job, g, before)
    requires forall b :: b in Expected(g, job.requestedRange) ==> b.start in have
    ensures var proposal := Proposal(job, g, options, Some(before), have);
            && proposal.completeThrough == Some(job.requestedRange.end)
            && proposal.state == Complete && proposal.missingRanges == []
  {
    ExpectedSpec(g, job.requestedRange);
    AllServed(before.completeThrough, Expected(g, job.requestedRange), have);
    NothingUnserved(job, g, options, Some(before), have);
  }

  lemma ServedCommits(job: Job, g: Grid, options: Options, before: StoredCheckpoint,
                      have: set<Instant>)
    requires g.Wf() && EndsAhead(job, g, before) && job.expectation.coverageKey != "" && job.instrument.symbol != ""
    requires forall b :: b in Expected(g, job.requestedRange) ==> b.start in have
    ensures var proposal := Proposal(job, g, options, Some(before), have);
            && ValidProposal(proposal)
            && Returned(Some(before),
                        Update(Some(before.version), proposal)) == Some(proposal.(version := before.version + 1))
  {
    ServedToTheEnd(job, g, options, before, have);
    ProposalAdmissible(job, g, options, Some(before), have);
    MonotoneReturns(before, Proposal(job, g, options, Some(before), have));
  }

  lemma MonotoneReturns(before: StoredCheckpoint, proposal: StoredCheckpoint)
    requires Monotone(before, proposal)
    ensures Returned(Some(before), Update(Some(before.version), proposal))
         == Some(proposal.(version := before.version + 1))
  {
  }

  /** When every bar of the chunk was served, the executor's proposal commits, by compare-and-set on the
      frozen version, exactly the row recovery continues from: complete, gap-free, at the chunk's end. */
  lemma ServedChunkCommits(request: Request, calendar: Calendar, job: Job, options: Options,
                           have: set<Instant>)
    requires WellFormedSessions(calendar.sessions) && PlanNext(request, calendar) == Ok(Some(job))
             && request.instrument.symbol != ""
    requires forall b :: b in Expected(request.Grid(calendar), job.requestedRange) ==> b.start in have
    ensures var before := request.checkpointBefore;
            var proposal := Proposal(job, request.Grid(calendar), options, Some(before), have);
            && ValidProposal(proposal)
            && Returned(Some(before),
                        Update(job.expectation.expectedVersion,
                               proposal)) == Some(proposal.(version := before.version + 1))
            && proposal.completeThrough == Some(job.requestedRange.end) && proposal.state == Complete
            && proposal.missingRanges == []
  {
    var before, g := request.checkpointBefore, request.Grid(calendar);
    JobCarriesRequest(request, calendar, job);
    JobEndsAhead(request, calendar, job);
    ServedToTheEnd(job, g, options, before, have);
    ServedCommits(job, g, options, before, have);
  }
}
