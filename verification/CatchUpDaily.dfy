/** Daily equity streams: one bar for each session, of any length; what counts is how far apart the closes are. */
module CatchUpDaily {
  import opened Market
  import opened SessionGrid
  import opened Checkpoint
  import opened Schedule
  import opened Execution
  import opened CatchUp
  import opened CatchUpRounds

  ghost predicate Daily(s: Stream) { Permitted(s) && s.g.DailyEquity() }

  /** The first close of the scope after an instant. */
  function NextClose(g: Grid, sessions: seq<Session>, at: Instant): Option<Instant> {
    if sessions == [] then None
    else
      var rest := NextClose(g, sessions[1..], at);
      if InScope(sessions[0].kind, g.scope) && at < sessions[0].closesAt
         && (rest.None? || sessions[0].closesAt <= rest.value)
      then Some(sessions[0].closesAt) else rest
  }

  /** A session of the scope closes at `c`. */
  ghost predicate Closes(g: Grid, sessions: seq<Session>, c: Instant) {
    exists session :: session in sessions && InScope(session.kind, g.scope) && session.closesAt == c
  }

  lemma {:induction false} NextCloseSpec(g: Grid, sessions: seq<Session>, at: Instant)
    ensures var c := NextClose(g, sessions, at); c.Some? ==> at < c.value && Closes(g, sessions, c.value)
    ensures forall o :: Closes(g, sessions, o) && at < o ==>
              NextClose(g, sessions, at).Some? && NextClose(g, sessions, at).value <= o
  {
    if sessions != [] {
      NextCloseSpec(g, sessions[1..], at);
      assert sessions == [sessions[0]] + sessions[1..];
      forall o ensures Closes(g, sessions, o)
                  <==> (InScope(sessions[0].kind, g.scope) && sessions[0].closesAt == o) || Closes(g, sessions[1..], o)
      {
        if Closes(g, sessions[1..], o) {
          var session :| session in sessions[1..] && InScope(session.kind, g.scope) && session.closesAt == o;
          assert session in sessions;
        }
      }
    }
  }

  /** Progress is measured from what is complete or, if that is later, from the floor. */
  function Mark(s: Stream, through: Option<Instant>): Instant {
    if through.Some? then Max(s.config.retentionFloor, through.value) else s.config.retentionFloor
  }

  /** Where the range of a forward round begins. */
  function Start(s: Stream, through: Option<Instant>): Instant {
    if through.Some? then Max(s.config.retentionFloor, through.value - s.Overlap()) else s.config.retentionFloor
  }

  /** How far one job reaches. */
  function Reach(s: Stream, through: Option<Instant>): Instant { Start(s, through) + s.Room() }

  /** The close after `c`, if it is due, is within reach of a job that starts from `c`. */
  predicate NextWithinReach(s: Stream, c: Instant)
    requires s.Boundary().Some?
  {
    var next := NextClose(s.g, s.g.sessions, c);
    next.Some? && next.value <= s.Boundary().value ==> next.value <= Reach(s, Some(c))
  }

  /** The first close ahead is within reach. */
  predicate FirstWithinReach(s: Stream, through: Option<Instant>) {
    var first := NextClose(s.g, s.g.sessions, Mark(s, through));
    first.Some? && first.value <= Reach(s, through)
  }

  /** When a round is due, the first close ahead is within reach, and so is, from every close ahead, the next one. */
  ghost predicate ClosesWithinReach(s: Stream, through: Option<Instant>) {
    Due(s, through) ==>
      && FirstWithinReach(s, through)
      && forall c :: Closes(s.g, s.g.sessions, c) && Mark(s, through) < c ==> NextWithinReach(s, c)
  }

  /** The boundary is a close. */
  lemma BoundaryCloses(s: Stream)
    requires Daily(s) && s.Boundary().Some?
    ensures Closes(s.g, s.g.sessions, s.Boundary().value)
  {
    LatestClosedSpec(s.g, s.g.sessions, s.now - s.config.finalizationLagMs.Of(s.g.cadence));
  }

  lemma BarCloses(s: Stream, b: Bar)
    requires Daily(s) && s.g.Eligible(b)
    ensures Closes(s.g, s.g.sessions, b.completes)
  {
    var i :| 0 <= i < |s.g.sessions| && s.g.InSession(s.g.sessions[i], b);
    assert s.g.sessions[i] in s.g.sessions;
  }

  lemma BarOfClose(s: Stream, c: Instant) returns (b: Bar)
    requires Daily(s) && Closes(s.g, s.g.sessions, c)
    ensures s.g.Eligible(b) && b.completes == c
  {
    var session :| session in s.g.sessions && InScope(session.kind, s.g.scope) && session.closesAt == c;
    var i :| 0 <= i < |s.g.sessions| && s.g.sessions[i] == session;
    b := Bar(session.opensAt, session.closesAt);
    assert s.g.InSession(s.g.sessions[i], b);
  }

  /** A forward round is planned exactly when it is due. */
  lemma DailyPlan(s: Stream, row: Option<StoredCheckpoint>)
    requires Daily(s) && GoesForward(s, row)
    ensures s.Plan(row).Some? <==> Due(s, ThroughOf(row))
    ensures s.Plan(row).Some? ==>
              s.Plan(row).value.range
              == TimeRange(Start(s, ThroughOf(row)), Min(s.Boundary().value, Reach(s, ThroughOf(row))))
  {
  }

  /** The first close ahead is due. */
  lemma FirstCloseIsDue(s: Stream, through: Option<Instant>)
    requires Daily(s) && Due(s, through)
    ensures NextClose(s.g, s.g.sessions, Mark(s, through)).Some?
    ensures Mark(s, through) < NextClose(s.g, s.g.sessions, Mark(s, through)).value <= s.Boundary().value
    ensures Closes(s.g, s.g.sessions, NextClose(s.g, s.g.sessions, Mark(s, through)).value)
  {
    BoundaryCloses(s);
    NextCloseSpec(s.g, s.g.sessions, Mark(s, through));
  }

  /** A close of the range is the completion of one of its bars. */
  lemma CloseIsServed(s: Stream, row: Option<StoredCheckpoint>, c: Instant)
    requires Daily(s) && GoesForward(s, row) && s.Plan(row).Some? && Closes(s.g, s.g.sessions, c)
    requires Mark(s, ThroughOf(row)) < c <= Min(s.Boundary().value, Reach(s, ThroughOf(row)))
    ensures var bars := Expected(s.g, s.Plan(row).value.range); bars != [] && c <= bars[|bars| - 1].completes
  {
    DailyPlan(s, row);
    ExpectedSpec(s.g, s.Plan(row).value.range);
    var b := BarOfClose(s, c);
    LastIsLatest(Expected(s.g, s.Plan(row).value.range), b);
  }

  /** The last bar of the range completes at a close within it. */
  lemma LastIsClose(s: Stream, row: Option<StoredCheckpoint>)
    requires Daily(s) && GoesForward(s, row) && s.Plan(row).Some? && Expected(s.g, s.Plan(row).value.range) != []
    ensures var bars := Expected(s.g, s.Plan(row).value.range);
            var last := bars[|bars| - 1].completes;
            && Closes(s.g, s.g.sessions, last) && s.config.retentionFloor < last
            && last <= Min(s.Boundary().value, Reach(s, ThroughOf(row)))
  {
    var bars := Expected(s.g, s.Plan(row).value.range);
    DailyPlan(s, row);
    ExpectedSpec(s.g, s.Plan(row).value.range);
    assert bars[|bars| - 1] in bars;
    BarCloses(s, bars[|bars| - 1]);
  }

  /** A daily round moves exactly when the first close ahead is within reach, and then to the last close that is. */
  lemma DailyRound(s: Stream, row: Option<StoredCheckpoint>)
    requires Daily(s) && GoesForward(s, row) && s.Plan(row).Some?
    ensures var through, end := ThroughOf(row), Min(s.Boundary().value, Reach(s, ThroughOf(row)));
            && (MovedForward(through, Taken(s, row)) <==> FirstWithinReach(s, through))
            && (MovedForward(through, Taken(s, row)) ==>
                  && Mark(s, through) < Taken(s, row).value <= end && Closes(s.g, s.g.sessions, Taken(s, row).value)
                  && forall c :: Closes(s.g, s.g.sessions, c) && Mark(s, through) < c <= end
                       ==> c <= Taken(s, row).value)
  {
    var through := ThroughOf(row);
    DailyPlan(s, row);
    FirstCloseIsDue(s, through);
    NextCloseSpec(s.g, s.g.sessions, Mark(s, through));
    if Expected(s.g, s.Plan(row).value.range) != [] { LastIsClose(s, row); }
    forall c | Closes(s.g, s.g.sessions, c) && Mark(s, through) < c <= Min(s.Boundary().value, Reach(s, through))
      ensures MovedForward(through, Taken(s, row)) && c <= Taken(s, row).value
    {
      CloseIsServed(s, row, c);
    }
  }

  /** From a close that a job has jumped over, the next close was within reach of that job already. */
  lemma JumpedIsWithinReach(s: Stream, through: Option<Instant>, at: Instant, c: Instant)
    requires Daily(s) && Due(s, through) && Closes(s.g, s.g.sessions, at) && at <= Reach(s, through)
    requires Mark(s, through) < c < at
    ensures NextWithinReach(s, c)
  {
    NextCloseSpec(s.g, s.g.sessions, c);
  }

  /** A round that moves does not change whether the closes are within reach. */
  lemma DailyMoveKeepsVerdict(s: Stream, through: Option<Instant>, at: Instant)
    requires Daily(s) && Due(s, through) && FirstWithinReach(s, through)
    requires Closes(s.g, s.g.sessions, at) && Mark(s, through) < at <= Min(s.Boundary().value, Reach(s, through))
    ensures ClosesWithinReach(s, through) <==> ClosesWithinReach(s, Some(at))
  {
    NextCloseSpec(s.g, s.g.sessions, at);
    if at < s.Boundary().value { FirstCloseIsDue(s, Some(at)); }
    forall c | Closes(s.g, s.g.sessions, c) && Mark(s, through) < c && !(at < c)
      ensures NextWithinReach(s, c) || (c == at && at < s.Boundary().value)
    {
      if c < at { JumpedIsWithinReach(s, through, at, c); }
    }
    forall c | at < c && s.Boundary().value <= at ensures NextWithinReach(s, c) {
      NextCloseSpec(s.g, s.g.sessions, c);
    }
  }

  /** The verdict on a forward row: within reach when nothing is planned, unchanged by a round that moves, and out of
      reach when the round does not. */
  lemma DailyVerdict(s: Stream, row: Option<StoredCheckpoint>)
    requires Daily(s) && GoesForward(s, row)
    ensures s.Plan(row).None? ==> ClosesWithinReach(s, ThroughOf(row))
    ensures s.Plan(row).Some? ==>
              if MovedForward(ThroughOf(row), Taken(s, row))
              then ClosesWithinReach(s, ThroughOf(row)) <==> ClosesWithinReach(s, Taken(s, row))
              else !ClosesWithinReach(s, ThroughOf(row))
  {
    DailyPlan(s, row);
    if s.Plan(row).Some? {
      DailyRound(s, row);
      if MovedForward(ThroughOf(row), Taken(s, row)) { DailyMoveKeepsVerdict(s, ThroughOf(row), Taken(s, row).value); }
    }
  }
}
