/** The finalised boundary of a stream: how late it is, and how it moves with the clock. */
module Boundary {
  import opened Market
  import opened SessionGrid
  import opened Schedule

  lemma EarlierSessionCloses(g: Grid, s: Session, o: Session)
    requires g.Wf() && s in g.sessions && o in g.sessions && InScope(s.kind, g.scope) && InScope(o.kind, g.scope)
    requires o.closesAt < s.closesAt
    ensures o.closesAt <= s.opensAt
  {
    var i :| 0 <= i < |g.sessions| && g.sessions[i] == s;
    var j :| 0 <= j < |g.sessions| && g.sessions[j] == o;
    assert g.sessions[i].kind == g.sessions[j].kind;
  }

  /** The boundary of an intraday equity stream is not monotone in time: a tick before the close it lies inside
      the session, and at the close, until the finalisation lag has passed, it is back before the opening. */
  lemma BoundaryFallsBackAtClose(g: Grid, s: Session, lag: int)
    requires g.Wf() && g.IntradayEquity() && s in g.sessions && InScope(s.kind, g.scope)
    requires lag > 0 && s.closesAt - 1 - lag - s.opensAt >= g.Interval()
    requires CurrentSession(g, g.sessions, s.closesAt).None?
    ensures LatestBoundary(g, s.closesAt - 1, lag).Some? && LatestBoundary(g, s.closesAt - 1, lag).value > s.opensAt
    ensures var later := LatestBoundary(g, s.closesAt, lag); later.Some? ==> later.value <= s.opensAt
  {
    var i :| 0 <= i < |g.sessions| && g.sessions[i] == s;
    CurrentSessionFound(g, g.sessions, s.closesAt - 1, i);
    FloorSpec(Min(s.closesAt - 1 - lag, s.closesAt) - s.opensAt, g.cadence);
    LatestClosedSpec(g, g.sessions, s.closesAt - lag);
    var closed := LatestClosed(g, g.sessions, s.closesAt - lag);
    if closed.Some? {
      EarlierSessionCloses(g, s, closed.value);
      FloorSpec(Min(s.closesAt - lag, closed.value.closesAt) - closed.value.opensAt, g.cadence);
    }
  }

  /** Nothing is final for the planner although bars are: a session has just opened, or the session of the bar
      closed less than the lag ago. */
  predicate Blind(g: Grid, now: Instant, lag: int, own: Session) {
    var current := CurrentSession(g, g.sessions, now);
    if current.Some? then Min(now - lag, current.value.closesAt) - current.value.opensAt < g.Interval()
    else
      var closed := LatestClosed(g, g.sessions, now - lag);
      own.closesAt > now - lag || (closed.Some? && closed.value.closesAt - closed.value.opensAt < g.Interval())
  }

  /** A completion on the grid of a session is not past the last whole step before `stop`. */
  lemma LastStep(c: Cadence, open: Instant, stop: Instant, completes: Instant)
    requires (completes - open) % IntervalMs(c) == 0 && completes <= stop
    ensures completes <= open + FloorTo(stop - open, c)
  {
    FloorSpec(stop - open, c);
    var last := open + FloorTo(stop - open, c);
    if last < completes { AlignedDisjoint(c, open, last, completes); }
  }

  lemma OwnSession(g: Grid, i: nat, b: Bar, now: Instant, lag: int)
    requires g.Wf() && g.IntradayEquity() && i < |g.sessions| && g.InSession(g.sessions[i], b)
             && b.completes <= now - lag
    requires CurrentSession(g, g.sessions, now).Some? && lag >= 0
    ensures var s := CurrentSession(g, g.sessions, now).value;
            s == g.sessions[i] || b.completes <= s.opensAt
  {
    CurrentSessionSpec(g, g.sessions, now);
    var s := CurrentSession(g, g.sessions, now).value;
    var k :| 0 <= k < |g.sessions| && g.sessions[k] == s;
    assert g.sessions[k].kind == g.sessions[i].kind;
  }

  /** While a session is open, every final bar is below the boundary exactly when the session has one. */
  lemma LatestWhileOpen(g: Grid, i: nat, b: Bar, now: Instant, lag: int)
    requires g.Wf() && g.IntradayEquity() && i < |g.sessions| && g.InSession(g.sessions[i], b)
    requires lag >= 0 && b.completes <= now - lag && CurrentSession(g, g.sessions, now).Some?
    ensures var boundary := LatestBoundary(g, now, lag);
            (boundary.Some? && b.completes <= boundary.value) <==> !Blind(g, now, lag, g.sessions[i])
  {
    OwnSession(g, i, b, now, lag);
    CurrentSessionSpec(g, g.sessions, now);
    var s := CurrentSession(g, g.sessions, now).value;
    var stop := Min(now - lag, s.closesAt);
    FloorSpec(stop - s.opensAt, g.cadence);
    if s == g.sessions[i] {
      PlusStep(g.cadence, b.start - s.opensAt);
      assert b.completes - s.opensAt == b.start - s.opensAt + g.Interval();
      LastStep(g.cadence, s.opensAt, stop, b.completes);
    }
  }

  lemma LatestWhileClosed(g: Grid, i: nat, b: Bar, now: Instant, lag: int)
    requires g.Wf() && g.IntradayEquity() && i < |g.sessions| && g.InSession(g.sessions[i], b)
    requires lag >= 0 && b.completes <= now - lag && CurrentSession(g, g.sessions, now).None?
    ensures var boundary := LatestBoundary(g, now, lag);
            (boundary.Some? && b.completes <= boundary.value) <==> !Blind(g, now, lag, g.sessions[i])
  {
    var own := g.sessions[i];
    LatestClosedSpec(g, g.sessions, now - lag);
    var closed := LatestClosed(g, g.sessions, now - lag);
    if closed.Some? {
      var s := closed.value;
      var stop := Min(now - lag, s.closesAt);
      FloorSpec(stop - s.opensAt, g.cadence);
      if own.closesAt > now - lag {
        EarlierSessionCloses(g, own, s);
      } else if own == s {
        PlusStep(g.cadence, b.start - s.opensAt);
        assert b.completes - s.opensAt == b.start - s.opensAt + g.Interval();
        LastStep(g.cadence, s.opensAt, stop, b.completes);
      } else {
        ClosedBefore(g, own, s);
      }
    } else {
      assert own in g.sessions;
    }
  }

  lemma ClosedBefore(g: Grid, a: Session, b: Session)
    requires g.Wf() && a in g.sessions && b in g.sessions && InScope(a.kind, g.scope) && InScope(b.kind, g.scope)
    requires a != b && a.closesAt <= b.closesAt
    ensures a.closesAt <= b.opensAt
  {
    var i :| 0 <= i < |g.sessions| && g.sessions[i] == a;
    var j :| 0 <= j < |g.sessions| && g.sessions[j] == b;
    assert g.sessions[i].kind == g.sessions[j].kind;
  }

  /** The boundary is as late as it can be: every eligible bar that completed a lag ago is below it, for crypto
      and daily streams always, and for intraday equities exactly outside the two blind spots. */
  lemma BoundaryIsLatest(g: Grid, b: Bar, now: Instant, lag: int)
    requires g.Wf() && lag >= 0 && g.Eligible(b) && b.completes <= now - lag
    requires g.DailyEquity() ==> g.scope == RegularScope
    ensures var boundary := LatestBoundary(g, now, lag);
            && (!g.IntradayEquity() ==> boundary.Some? && b.completes <= boundary.value)
            && (g.IntradayEquity() ==> forall i :: 0 <= i < |g.sessions| && g.InSession(g.sessions[i], b) ==>
                  (boundary.Some? && b.completes <= boundary.value <==> !Blind(g, now, lag, g.sessions[i])))
  {
    if g.route == CryptoBars {
      PlusStep(g.cadence, b.start);
      LastStep(g.cadence, 0, now - lag, b.completes);
    } else if g.cadence == OneDay {
      LatestClosedSpec(g, g.sessions, now - lag);
      var i :| 0 <= i < |g.sessions| && g.InSession(g.sessions[i], b);
      assert g.sessions[i] in g.sessions;
    } else {
      forall i | 0 <= i < |g.sessions| && g.InSession(g.sessions[i], b)
        ensures (LatestBoundary(g, now, lag).Some? && b.completes <= LatestBoundary(g, now, lag).value)
           <==> !Blind(g, now, lag, g.sessions[i])
      {
        if CurrentSession(g, g.sessions, now).Some? {
          LatestWhileOpen(g, i, b, now, lag);
        } else {
          LatestWhileClosed(g, i, b, now, lag);
        }
      }
    }
  }

  /** Exactly when the boundary is monotone: for crypto and daily streams always, and for intraday equities, with
      `own` the session the earlier boundary lies in, exactly when the later instant is not blind for that session. */
  lemma BoundaryMonotoneIff(g: Grid, early: Instant, late: Instant, lag: int) returns (own: Session)
    requires g.Wf() && 0 <= lag && early <= late && LatestBoundary(g, early, lag).Some?
    ensures var before, after := LatestBoundary(g, early, lag), LatestBoundary(g, late, lag);
            && (!g.IntradayEquity() ==> after.Some? && before.value <= after.value)
            && (g.IntradayEquity() ==>
                  && own in g.sessions && InScope(own.kind, g.scope) && own.opensAt < before.value <= own.closesAt
                  && (after.Some? && before.value <= after.value <==> !Blind(g, late, lag, own)))
  {
    BoundaryIsFinal(g, early, lag);
    var b :| g.Eligible(b) && b.completes == LatestBoundary(g, early, lag).value;
    BoundaryIsLatest(g, b, late, lag);
    own := Session("", Regular, 0, 0, false, "");
    if g.IntradayEquity() {
      var i :| 0 <= i < |g.sessions| && g.InSession(g.sessions[i], b);
      own := g.sessions[i];
    }
  }
}
