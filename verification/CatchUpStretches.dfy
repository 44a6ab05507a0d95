/** Intraday and crypto streams: what one round reaches, and which stretches of bars stop it. */
module CatchUpStretches {
  import opened Market
  import opened SessionGrid
  import opened Checkpoint
  import opened Schedule
  import opened Execution
  import opened CatchUp
  import opened CatchUpRounds

  /** Bars of one length: every stream but daily equities. */
  ghost predicate Stepped(s: Stream) { Permitted(s) && !s.g.DailyEquity() }

  /** A stretch of consecutive bars on one grid that starts at `open`: a session, or all a crypto stream has. */
  datatype Stretch = Stretch(open: Instant, close: Instant)

  /** The stretch is still ahead of `through`. */
  ghost predicate Ahead(s: Stream, through: Option<Instant>, x: Stretch)
    requires s.Boundary().Some?
  {
    if s.g.route == CryptoBars then
      x == Stretch(FloorTo(s.config.retentionFloor, s.g.cadence), s.Boundary().value)
    else exists session :: session in s.g.sessions && InScope(session.kind, s.g.scope)
           && x == Stretch(session.opensAt, session.closesAt)
           && x.close > s.config.retentionFloor && (through.Some? ==> x.close > through.value)
           && x.open < s.Boundary().value
  }

  function Base(s: Stream, x: Stretch): Instant { Max(s.config.retentionFloor, x.open) }

  function Stop(s: Stream, x: Stretch): Instant
    requires s.Boundary().Some?
  {
    Min(s.Boundary().value, x.close)
  }

  /** The first grid instant that retention leaves. */
  function FirstStart(s: Stream, x: Stretch): Instant { x.open + CeilTo(Base(s, x) - x.open, s.g.cadence) }

  /** The stretch is a whole number of bars up to its end, retention leaves one of them, and either the overlap
      leaves room for a new bar or one job covers the stretch from its beginning. */
  predicate Passable(s: Stream, through: Option<Instant>, x: Stretch)
    requires s.Boundary().Some?
  {
    && (Stop(s, x) - x.open) % s.g.Interval() == 0
    && FirstStart(s, x) + s.g.Interval() <= Stop(s, x)
    && (s.Overlap() + s.g.Interval() <= s.Room()
        || ((through.Some? ==> through.value - s.Overlap() <= Base(s, x)) && Stop(s, x) <= Base(s, x) + s.Room()))
  }

  /** When a forward round is due, every stretch ahead is passable. */
  ghost predicate StretchesPassable(s: Stream, through: Option<Instant>) {
    Due(s, through) ==> forall x :: Ahead(s, through, x) ==> Passable(s, through, x)
  }

  // One round.

  /** The stretch a forward round works in. */
  function Current(s: Stream, through: Option<Instant>): Option<Stretch>
    requires s.Boundary().Some?
  {
    if s.g.route == CryptoBars then Some(Stretch(FloorTo(s.config.retentionFloor, s.g.cadence), s.Boundary().value))
    else
      var anchor := if through.Some? then Max(through.value, s.config.retentionFloor) else s.config.retentionFloor;
      var session := NextSession(s.g, s.g.sessions, anchor, s.Boundary().value);
      if session.None? then None else Some(Stretch(session.value.opensAt, session.value.closesAt))
  }

  function From(s: Stream, through: Option<Instant>, x: Stretch): Instant {
    if through.Some? then Max(Base(s, x), through.value - s.Overlap()) else Base(s, x)
  }

  function Until(s: Stream, through: Option<Instant>, x: Stretch): Instant
    requires s.Boundary().Some?
  {
    Min(Stop(s, x), From(s, through, x) + s.Room())
  }

  /** The start of the first bar that is still to come. */
  function Target(s: Stream, through: Option<Instant>, x: Stretch): Instant {
    if through.Some? && through.value >= Base(s, x) then through.value else FirstStart(s, x)
  }

  /** The current stretch is the first one ahead; any other one opens after it has closed. */
  lemma CurrentIsFirst(s: Stream, through: Option<Instant>)
    requires Stepped(s) && Due(s, through)
    ensures Current(s, through).Some? ==> Ahead(s, through, Current(s, through).value)
    ensures forall x :: Ahead(s, through, x) ==>
              Current(s, through).Some? && (x == Current(s, through).value || Current(s, through).value.close <= x.open)
  {
    if s.g.route == StockBars {
      var boundary := s.Boundary().value;
      var anchor := if through.Some? then Max(through.value, s.config.retentionFloor) else s.config.retentionFloor;
      NextSessionSpec(s.g, s.g.sessions, anchor, boundary);
      forall x | Ahead(s, through, x)
        ensures Current(s, through).Some?
        ensures x == Current(s, through).value || Current(s, through).value.close <= x.open
      {
        var session :| session in s.g.sessions && InScope(session.kind, s.g.scope)
                       && x == Stretch(session.opensAt, session.closesAt)
                       && x.close > s.config.retentionFloor && (through.Some? ==> x.close > through.value)
                       && x.open < boundary;
        SessionsApart(s.g, NextSession(s.g, s.g.sessions, anchor, boundary).value, session);
      }
    }
  }

  lemma SessionsApart(g: Grid, a: Session, b: Session)
    requires g.Wf() && a in g.sessions && b in g.sessions && InScope(a.kind, g.scope) && InScope(b.kind, g.scope)
    requires a.opensAt <= b.opensAt
    ensures a == b || a.closesAt <= b.opensAt
  {
    var i :| 0 <= i < |g.sessions| && g.sessions[i] == a;
    var j :| 0 <= j < |g.sessions| && g.sessions[j] == b;
    assert g.sessions[i].kind == g.sessions[j].kind;
  }

  /** Inside a stretch the eligible bars are the whole steps from its opening. */
  lemma StretchBars(s: Stream, through: Option<Instant>, x: Stretch, b: Bar)
    requires Stepped(s) && Due(s, through) && Ahead(s, through, x) && x.open <= b.start && b.completes <= x.close
    ensures s.g.Eligible(b) <==> (b.start - x.open) % s.g.Interval() == 0 && b.completes == b.start + s.g.Interval()
  {
    if s.g.route == CryptoBars {
      FloorSpec(s.config.retentionFloor, s.g.cadence);
      AlignedShift(s.g.cadence, 0, x.open, b.start);
    } else {
      var session :| session in s.g.sessions && InScope(session.kind, s.g.scope)
                     && x == Stretch(session.opensAt, session.closesAt);
      SessionBarsOf(s.g, session, b);
    }
  }

  lemma SessionBarsOf(g: Grid, session: Session, b: Bar)
    requires g.Wf() && g.IntradayEquity() && session in g.sessions && InScope(session.kind, g.scope)
    requires session.opensAt <= b.start && b.completes <= session.closesAt
    ensures g.Eligible(b) <==> (b.start - session.opensAt) % g.Interval() == 0 && b.completes == b.start + g.Interval()
  {
    var i :| 0 <= i < |g.sessions| && g.sessions[i] == session;
    if g.Eligible(b) {
      var j :| 0 <= j < |g.sessions| && g.InSession(g.sessions[j], b);
      assert g.sessions[i].kind == g.sessions[j].kind;
      assert i == j;
    } else {
      assert !g.InSession(g.sessions[i], b);
    }
  }

  /** What is complete inside a stretch is on its grid. */
  lemma ThroughOnGrid(s: Stream, through: Instant, x: Stretch, e: Bar)
    requires Stepped(s) && Due(s, Some(through)) && Ahead(s, Some(through), x)
    requires s.g.Eligible(e) && e.completes == through && x.open <= through < x.close
    ensures (through - x.open) % s.g.Interval() == 0
  {
    if s.g.route == CryptoBars {
      FloorSpec(s.config.retentionFloor, s.g.cadence);
      PlusStep(s.g.cadence, e.start);
      AlignedShift(s.g.cadence, 0, x.open, through);
    } else if x.open < through {
      var session :| session in s.g.sessions && InScope(session.kind, s.g.scope)
                     && x == Stretch(session.opensAt, session.closesAt);
      CompletionAligned(s, session, e);
    }
  }

  /** A forward round is planned exactly when it is due and a stretch is left. */
  lemma PlanForward(s: Stream, row: Option<StoredCheckpoint>)
    requires Stepped(s) && GoesForward(s, row)
    ensures s.Plan(row).Some? <==> Due(s, ThroughOf(row)) && Current(s, ThroughOf(row)).Some?
    ensures s.Plan(row).Some? ==>
              var x := Current(s, ThroughOf(row)).value;
              s.Plan(row).value.range == TimeRange(From(s, ThroughOf(row), x), Until(s, ThroughOf(row), x))
  {
    StepTimes(s.g.Interval(), s.config.maxBarsPerJob);
    if Due(s, ThroughOf(row)) {
      CurrentIsFirst(s, ThroughOf(row));
      FloorSpec(s.config.retentionFloor, s.g.cadence);
    }
  }

  /** The bars of a forward round, in terms of the grid of its stretch. */
  lemma RoundBars(s: Stream, through: Option<Instant>, x: Stretch, b: Bar)
    requires Stepped(s) && Due(s, through) && Current(s, through) == Some(x)
    ensures b in Expected(s.g, TimeRange(From(s, through, x), Until(s, through, x)))
       <==> && From(s, through, x) <= b.start && b.completes <= Until(s, through, x)
            && (b.start - x.open) % s.g.Interval() == 0 && b.completes == b.start + s.g.Interval()
  {
    CurrentIsFirst(s, through);
    ExpectedSpec(s.g, TimeRange(From(s, through, x), Until(s, through, x)));
    FloorSpec(s.config.retentionFloor, s.g.cadence);
    if From(s, through, x) <= b.start && b.completes <= Until(s, through, x) { StretchBars(s, through, x, b); }
  }

  /** The first bar still to come starts on the grid, where the range allows it. */
  lemma TargetOnGrid(s: Stream, row: Option<StoredCheckpoint>, x: Stretch)
    requires Stepped(s) && Reachable(s.g, row) && Due(s, ThroughOf(row)) && Current(s, ThroughOf(row)) == Some(x)
    ensures var y := Target(s, ThroughOf(row), x);
            && (y - x.open) % s.g.Interval() == 0 && From(s, ThroughOf(row), x) <= y
            && (ThroughOf(row).Some? ==> ThroughOf(row).value <= y)
  {
    var through := ThroughOf(row);
    CurrentIsFirst(s, through);
    CeilSpec(Base(s, x) - x.open, s.g.cadence);
    if through.Some? && through.value >= Base(s, x) {
      var e :| s.g.Eligible(e) && e.completes == through.value;
      ThroughOnGrid(s, through.value, x, e);
    }
  }

  lemma FirstStartByTarget(s: Stream, row: Option<StoredCheckpoint>, x: Stretch)
    requires Stepped(s) && Reachable(s.g, row) && Due(s, ThroughOf(row)) && Current(s, ThroughOf(row)) == Some(x)
    ensures FirstStart(s, x) <= Target(s, ThroughOf(row), x)
  {
    var y := Target(s, ThroughOf(row), x);
    TargetOnGrid(s, row, x);
    CeilSpec(Base(s, x) - x.open, s.g.cadence);
    if FirstStart(s, x) > y { AlignedDisjoint(s.g.cadence, x.open, y, FirstStart(s, x)); }
  }

  /** A bar of the range before the target is complete already. */
  lemma NothingBeforeTarget(s: Stream, row: Option<StoredCheckpoint>, x: Stretch, at: Instant)
    requires Stepped(s) && Reachable(s.g, row) && Due(s, ThroughOf(row)) && Current(s, ThroughOf(row)) == Some(x)
    requires (at - x.open) % s.g.Interval() == 0 && From(s, ThroughOf(row), x) <= at < Target(s, ThroughOf(row), x)
    ensures ThroughOf(row).Some? && at + s.g.Interval() <= ThroughOf(row).value
  {
    TargetOnGrid(s, row, x);
    CeilSpec(Base(s, x) - x.open, s.g.cadence);
    AlignedDisjoint(s.g.cadence, x.open, at, Target(s, ThroughOf(row), x));
  }

  /** The last whole step up to `until`. */
  function LastStop(s: Stream, x: Stretch, until: Instant): Instant { x.open + FloorTo(until - x.open, s.g.cadence) }

  /** Where a forward round leaves `completeThrough`. */
  function Reached(s: Stream, through: Option<Instant>, x: Stretch): Option<Instant>
    requires s.Boundary().Some?
  {
    if Target(s, through, x) + s.g.Interval() <= Until(s, through, x) then Some(LastStop(s, x, Until(s, through, x)))
    else through
  }

  /** The bars a forward round serves take `completeThrough` to `Reached`. */
  lemma BarsReach(s: Stream, row: Option<StoredCheckpoint>, x: Stretch, bars: seq<Bar>)
    requires Stepped(s) && Reachable(s.g, row) && Due(s, ThroughOf(row)) && Current(s, ThroughOf(row)) == Some(x)
    requires bars == Expected(s.g, TimeRange(From(s, ThroughOf(row), x), Until(s, ThroughOf(row), x)))
    ensures Ordered(bars)
    ensures Advance(ThroughOf(row), bars, StartsOf(bars)) == Reached(s, ThroughOf(row), x)
  {
    var through := ThroughOf(row);
    var y, until := Target(s, through, x), Until(s, through, x);
    ExpectedSpec(s.g, TimeRange(From(s, through, x), until));
    AllServed(through, bars, StartsOf(bars));
    TargetOnGrid(s, row, x);
    if bars != [] {
      var last := bars[|bars| - 1];
      assert last in bars;
      RoundBars(s, through, x, last);
      if last.start < y { NothingBeforeTarget(s, row, x, last.start); }
    }
    if y + s.g.Interval() <= until { LastBarReaches(s, row, x, bars); }
  }

  /** When the first bar still to come fits, a bar of the round completes at the last whole step. */
  lemma LastStepIsServed(s: Stream, row: Option<StoredCheckpoint>, x: Stretch)
    requires Stepped(s) && Reachable(s.g, row) && Due(s, ThroughOf(row)) && Current(s, ThroughOf(row)) == Some(x)
    requires Target(s, ThroughOf(row), x) + s.g.Interval() <= Until(s, ThroughOf(row), x)
    ensures var stop := LastStop(s, x, Until(s, ThroughOf(row), x));
            && Target(s, ThroughOf(row), x) + s.g.Interval() <= stop
            && Bar(stop - s.g.Interval(), stop)
               in Expected(s.g, TimeRange(From(s, ThroughOf(row), x), Until(s, ThroughOf(row), x)))
  {
    var through := ThroughOf(row);
    var y, until := Target(s, through, x), Until(s, through, x);
    var stop := LastStop(s, x, until);
    TargetOnGrid(s, row, x);
    NextOnGrid(s, x, y);
    StepWithin(s, x, y + s.g.Interval(), until);
    FloorSpec(until - x.open, s.g.cadence);
    MinusStep(s.g.cadence, stop - x.open);
    assert stop - s.g.Interval() - x.open == stop - x.open - s.g.Interval();
    RoundBars(s, through, x, Bar(stop - s.g.Interval(), stop));
  }

  lemma LastBarReaches(s: Stream, row: Option<StoredCheckpoint>, x: Stretch, bars: seq<Bar>)
    requires Stepped(s) && Reachable(s.g, row) && Due(s, ThroughOf(row)) && Current(s, ThroughOf(row)) == Some(x)
    requires bars == Expected(s.g, TimeRange(From(s, ThroughOf(row), x), Until(s, ThroughOf(row), x))) && Ordered(bars)
    requires Target(s, ThroughOf(row), x) + s.g.Interval() <= Until(s, ThroughOf(row), x)
    ensures bars != [] && bars[|bars| - 1].completes == LastStop(s, x, Until(s, ThroughOf(row), x))
    ensures Target(s, ThroughOf(row), x) + s.g.Interval() <= LastStop(s, x, Until(s, ThroughOf(row), x))
  {
    var until := Until(s, ThroughOf(row), x);
    LastStepIsServed(s, row, x);
    LastIsLatest(bars, Bar(LastStop(s, x, until) - s.g.Interval(), LastStop(s, x, until)));
    var b := bars[|bars| - 1];
    assert b in bars;
    RoundBars(s, ThroughOf(row), x, b);
    NextOnGrid(s, x, b.start);
    StepWithin(s, x, b.completes, until);
  }

  lemma NextOnGrid(s: Stream, x: Stretch, at: Instant)
    requires (at - x.open) % s.g.Interval() == 0
    ensures (at + s.g.Interval() - x.open) % s.g.Interval() == 0
  {
    PlusStep(s.g.cadence, at - x.open);
    assert at + s.g.Interval() - x.open == at - x.open + s.g.Interval();
  }

  lemma StepWithin(s: Stream, x: Stretch, at: Instant, until: Instant)
    requires at <= until
    requires (at - x.open) % s.g.Interval() == 0
    ensures at <= LastStop(s, x, until)
  {
    var stop := LastStop(s, x, until);
    FloorSpec(until - x.open, s.g.cadence);
    if stop < at { AlignedDisjoint(s.g.cadence, x.open, stop, at); }
  }

  /** Exactly what a forward round does: it moves to the last whole step of its range when the first bar that
      is still to come fits into the range, and otherwise it moves nothing. */
  lemma RoundReaches(s: Stream, row: Option<StoredCheckpoint>)
    requires Stepped(s) && Reachable(s.g, row) && GoesForward(s, row) && s.Plan(row).Some?
    ensures var x := Current(s, ThroughOf(row)).value;
            && Taken(s, row) == Reached(s, ThroughOf(row), x)
            && (MovedForward(ThroughOf(row), Taken(s, row))
                <==> Target(s, ThroughOf(row), x) + s.g.Interval() <= Until(s, ThroughOf(row), x))
  {
    PlanForward(s, row);
    var x := Current(s, ThroughOf(row)).value;
    var bars := Expected(s.g, s.Plan(row).value.range);
    BarsReach(s, row, x, bars);
    AllServed(ThroughOf(row), bars, StartsOf(bars));
    TargetOnGrid(s, row, x);
    if Target(s, ThroughOf(row), x) + s.g.Interval() <= Until(s, ThroughOf(row), x) { LastBarReaches(s, row, x, bars); }
  }

  // Over the whole run.

  /** In a passable stretch the first bar still to come completes by its end. */
  lemma PassableTarget(s: Stream, row: Option<StoredCheckpoint>, x: Stretch)
    requires Stepped(s) && Reachable(s.g, row) && Due(s, ThroughOf(row)) && Current(s, ThroughOf(row)) == Some(x)
    requires Passable(s, ThroughOf(row), x)
    ensures Target(s, ThroughOf(row), x) + s.g.Interval() <= Stop(s, x)
  {
    TargetOnGrid(s, row, x);
    CurrentIsFirst(s, ThroughOf(row));
    if ThroughOf(row).Some? && ThroughOf(row).value >= Base(s, x) {
      AlignedDisjoint(s.g.cadence, x.open, ThroughOf(row).value, Stop(s, x));
    }
  }

  lemma PassableMoves(s: Stream, row: Option<StoredCheckpoint>, x: Stretch)
    requires Stepped(s) && Reachable(s.g, row) && Due(s, ThroughOf(row)) && Current(s, ThroughOf(row)) == Some(x)
    requires Passable(s, ThroughOf(row), x)
    ensures Target(s, ThroughOf(row), x) + s.g.Interval() <= Until(s, ThroughOf(row), x)
  {
    PassableTarget(s, row, x);
    CeilSpec(Base(s, x) - x.open, s.g.cadence);
  }

  /** A moving round leaves every stretch but the current one ahead and as passable as before. */
  lemma OthersStayAhead(s: Stream, before: Option<Instant>, after: Instant, x: Stretch)
    requires Stepped(s) && Due(s, before) && Current(s, before).Some? && x != Current(s, before).value
    requires MovedForward(before, Some(after)) && after <= Current(s, before).value.close && after < s.Boundary().value
    ensures Ahead(s, before, x) <==> Ahead(s, Some(after), x)
    ensures Ahead(s, before, x) ==> (Passable(s, before, x) <==> Passable(s, Some(after), x))
  {
    CurrentIsFirst(s, before);
    if Ahead(s, before, x) && s.g.route == StockBars {
      var session :| session in s.g.sessions && InScope(session.kind, s.g.scope)
                     && x == Stretch(session.opensAt, session.closesAt);
      assert x.close > x.open >= after;
    }
    if Ahead(s, Some(after), x) && s.g.route == StockBars {
      var session :| session in s.g.sessions && InScope(session.kind, s.g.scope)
                     && x == Stretch(session.opensAt, session.closesAt);
      assert Ahead(s, before, x);
    }
  }

  lemma MoveLands(s: Stream, row: Option<StoredCheckpoint>, x: Stretch, at: Instant)
    requires Stepped(s) && Reachable(s.g, row) && Due(s, ThroughOf(row)) && Current(s, ThroughOf(row)) == Some(x)
    requires Target(s, ThroughOf(row), x) + s.g.Interval() <= Until(s, ThroughOf(row), x)
    requires at == LastStop(s, x, Until(s, ThroughOf(row), x))
    ensures Target(s, ThroughOf(row), x) + s.g.Interval() <= at <= Until(s, ThroughOf(row), x)
    ensures FirstStart(s, x) + s.g.Interval() <= at && (at - x.open) % s.g.Interval() == 0
    ensures MovedForward(ThroughOf(row), Some(at))
  {
    var y, until := Target(s, ThroughOf(row), x), Until(s, ThroughOf(row), x);
    TargetOnGrid(s, row, x);
    FirstStartByTarget(s, row, x);
    NextOnGrid(s, x, y);
    StepWithin(s, x, y + s.g.Interval(), until);
    FloorSpec(until - x.open, s.g.cadence);
  }

  /** A moving round in the current stretch: the stretch was passable exactly if the round finished it or it
      still is passable. */
  lemma CurrentSettled(s: Stream, row: Option<StoredCheckpoint>, x: Stretch, at: Instant)
    requires Stepped(s) && Reachable(s.g, row) && Due(s, ThroughOf(row)) && Current(s, ThroughOf(row)) == Some(x)
    requires Target(s, ThroughOf(row), x) + s.g.Interval() <= Until(s, ThroughOf(row), x)
    requires at == LastStop(s, x, Until(s, ThroughOf(row), x))
    ensures Passable(s, ThroughOf(row), x) <==> at == Stop(s, x) || Passable(s, Some(at), x)
  {
    MoveLands(s, row, x, at);
    if Passable(s, ThroughOf(row), x) && s.Overlap() + s.g.Interval() > s.Room() {
      StepWithin(s, x, Stop(s, x), Until(s, ThroughOf(row), x));
    }
  }

  /** A moving round does not change whether catch-up goes through. */
  lemma MoveKeepsVerdict(s: Stream, row: Option<StoredCheckpoint>, x: Stretch, at: Instant)
    requires Stepped(s) && Reachable(s.g, row) && Due(s, ThroughOf(row)) && Current(s, ThroughOf(row)) == Some(x)
    requires Target(s, ThroughOf(row), x) + s.g.Interval() <= Until(s, ThroughOf(row), x)
    requires at == LastStop(s, x, Until(s, ThroughOf(row), x))
    ensures StretchesPassable(s, ThroughOf(row)) <==> StretchesPassable(s, Some(at))
  {
    var through := ThroughOf(row);
    CurrentIsFirst(s, through);
    MoveLands(s, row, x, at);
    CurrentSettled(s, row, x, at);
    if at < s.Boundary().value {
      forall o | o != x
        ensures Ahead(s, through, o) <==> Ahead(s, Some(at), o)
        ensures Ahead(s, through, o) ==> (Passable(s, through, o) <==> Passable(s, Some(at), o))
      {
        OthersStayAhead(s, through, at, o);
      }
      CurrentAheadUntilDone(s, through, x, at);
    }
  }

  lemma CurrentAheadUntilDone(s: Stream, before: Option<Instant>, x: Stretch, at: Instant)
    requires Stepped(s) && Due(s, before) && Ahead(s, before, x)
    requires MovedForward(before, Some(at)) && at <= Stop(s, x) && at < s.Boundary().value
    ensures Ahead(s, Some(at), x) <==> at < Stop(s, x)
  {
    if s.g.route == StockBars {
      var session :| session in s.g.sessions && InScope(session.kind, s.g.scope)
                     && x == Stretch(session.opensAt, session.closesAt);
    }
  }

  /** The verdict on a forward row: passable when nothing is planned, unchanged by a round that moves, and impassable
      when the round does not. */
  lemma StretchVerdict(s: Stream, row: Option<StoredCheckpoint>)
    requires Stepped(s) && Reachable(s.g, row) && GoesForward(s, row)
    ensures s.Plan(row).None? ==> StretchesPassable(s, ThroughOf(row))
    ensures s.Plan(row).Some? ==>
              if MovedForward(ThroughOf(row), Taken(s, row))
              then StretchesPassable(s, ThroughOf(row)) <==> StretchesPassable(s, Taken(s, row))
              else !StretchesPassable(s, ThroughOf(row))
  {
    PlanForward(s, row);
    if Due(s, ThroughOf(row)) { CurrentIsFirst(s, ThroughOf(row)); }
    if s.Plan(row).Some? {
      var x := Current(s, ThroughOf(row)).value;
      RoundReaches(s, row);
      if MovedForward(ThroughOf(row), Taken(s, row)) {
        MoveKeepsVerdict(s, row, x, Taken(s, row).value);
      } else if Passable(s, ThroughOf(row), x) {
        PassableMoves(s, row, x);
      }
    }
  }

  lemma BarLiesAhead(s: Stream, through: Option<Instant>, b: Bar)
    requires Stepped(s) && s.Boundary().Some? && s.g.Eligible(b)
    requires s.config.retentionFloor <= b.start && b.completes <= s.Boundary().value
    requires through.Some? ==> through.value < b.completes
    ensures Due(s, through) && Current(s, through).Some?
  {
    EligibleNonEmpty(s.g, b);
    if s.g.route == StockBars {
      var i :| 0 <= i < |s.g.sessions| && s.g.InSession(s.g.sessions[i], b);
      var session := s.g.sessions[i];
      assert session in s.g.sessions;
      assert Ahead(s, through, Stretch(session.opensAt, session.closesAt));
      CurrentIsFirst(s, through);
    }
  }
}
