/** The session grid of one coverage stream and the executor's enumeration of it. */
module SessionGrid {
  import opened Market

  /** Everything that decides which bars a coverage key expects. */
  datatype Grid = Grid(cadence: Cadence, route: Route, scope: SessionScope, sessions: seq<Session>) {
    function Interval(): (ms: int)
      ensures ms >= 60_000
    {
      IntervalMs(cadence)
    }

    predicate DailyEquity() { route == StockBars && cadence == OneDay }

    predicate IntradayEquity() { route == StockBars && cadence != OneDay }

    ghost predicate Wf() { WellFormedSessions(sessions) }

    /** `b` is a bar of session `s`. */
    predicate InSession(s: Session, b: Bar) {
      && InScope(s.kind, scope)
      && if cadence == OneDay then b == Bar(s.opensAt, s.closesAt)
         else s.opensAt <= b.start && (b.start - s.opensAt) % Interval() == 0
              && b.completes == b.start + Interval() && b.completes <= s.closesAt
    }

    /** `b` is on the calendar-eligible grid. */
    ghost predicate Eligible(b: Bar) {
      if route == CryptoBars then b.start % Interval() == 0 && b.completes == b.start + Interval()
      else exists i :: 0 <= i < |sessions| && InSession(sessions[i], b)
    }

    /** The part of the grid a job over `range` is answerable for. */
    predicate Requested(b: Bar, range: TimeRange) {
      if DailyEquity() then range.start < b.completes <= range.end
      else range.start <= b.start && b.completes <= range.end
    }
  }

  /** Strictly increasing, pairwise disjoint bars. */
  ghost predicate Ordered(bars: seq<Bar>) {
    && (forall i :: 0 <= i < |bars| ==> bars[i].start < bars[i].completes)
    && (forall i, j :: 0 <= i < j < |bars| ==> bars[i].completes <= bars[j].start)
  }

  lemma EligibleNonEmpty(g: Grid, b: Bar)
    requires g.Wf() && g.Eligible(b)
    ensures b.start < b.completes
    ensures !g.DailyEquity() ==> b.completes == b.start + g.Interval()
  {
  }

  /** Two aligned bars on one grid of step `IntervalMs(c)` are equal or disjoint. */
  lemma AlignedDisjoint(c: Cadence, base: int, x: int, y: int)
    requires (x - base) % IntervalMs(c) == 0 && (y - base) % IntervalMs(c) == 0 && x < y
    ensures x + IntervalMs(c) <= y
  {
    match c
    case OneMin =>
    case FifteenMin =>
    case OneDay =>
  }

  lemma SessionBarsDisjoint(g: Grid, i: nat, j: nat, a: Bar, b: Bar)
    requires g.Wf() && g.route == StockBars && i < |g.sessions| && j < |g.sessions|
    requires g.InSession(g.sessions[i], a) && g.InSession(g.sessions[j], b)
    ensures a == b || a.completes <= b.start || b.completes <= a.start
  {
    if i == j && g.cadence != OneDay {
      var open := g.sessions[i].opensAt;
      if a.start < b.start { AlignedDisjoint(g.cadence, open, a.start, b.start); }
      if b.start < a.start { AlignedDisjoint(g.cadence, open, b.start, a.start); }
    }
  }

  /** Distinct eligible bars never overlap. */
  lemma EligibleDisjoint(g: Grid, a: Bar, b: Bar)
    requires g.Wf() && g.Eligible(a) && g.Eligible(b)
    ensures a == b || a.completes <= b.start || b.completes <= a.start
  {
    if g.route == CryptoBars {
      if a.start < b.start { AlignedDisjoint(g.cadence, 0, a.start, b.start); }
      if b.start < a.start { AlignedDisjoint(g.cadence, 0, b.start, a.start); }
    } else {
      var i :| 0 <= i < |g.sessions| && g.InSession(g.sessions[i], a);
      var j :| 0 <= j < |g.sessions| && g.InSession(g.sessions[j], b);
      SessionBarsDisjoint(g, i, j, a, b);
    }
  }

  /** `Math.floor(at / interval) * interval`. */
  function FloorTo(at: int, c: Cadence): int {
    at / IntervalMs(c) * IntervalMs(c)
  }

  /** `Math.ceil(from / interval) * interval`. */
  function CeilTo(from: int, c: Cadence): int {
    -FloorTo(-from, c)
  }

  lemma FloorSpec(at: int, c: Cadence)
    ensures FloorTo(at, c) % IntervalMs(c) == 0 && FloorTo(at, c) <= at < FloorTo(at, c) + IntervalMs(c)
  {
    match c
    case OneMin =>
    case FifteenMin =>
    case OneDay =>
  }

  lemma AddMinutes(a: int, m: int)
    ensures (a + 60_000 * m) % 60_000 == a % 60_000
  {
  }

  lemma AddQuarters(a: int, m: int)
    ensures (a + 900_000 * m) % 900_000 == a % 900_000
  {
  }

  lemma AddDays(a: int, m: int)
    ensures (a + 86_400_000 * m) % 86_400_000 == a % 86_400_000
  {
  }

  /** Adding a multiple of the step changes nothing. */
  lemma AddMultiple(c: Cadence, a: int, m: int)
    ensures (a + IntervalMs(c) * m) % IntervalMs(c) == a % IntervalMs(c)
  {
    match c
    case OneMin => AddMinutes(a, m);
    case FifteenMin => AddQuarters(a, m);
    case OneDay => AddDays(a, m);
  }

  lemma NegatedMultiple(x: int, c: Cadence)
    requires x % IntervalMs(c) == 0
    ensures (-x) % IntervalMs(c) == 0
  {
    var m := x / IntervalMs(c);
    assert -x == 0 + IntervalMs(c) * -m;
    AddMultiple(c, 0, -m);
  }

  lemma CeilSpec(from: int, c: Cadence)
    ensures CeilTo(from, c) % IntervalMs(c) == 0 && from <= CeilTo(from, c) < from + IntervalMs(c)
  {
    FloorSpec(-from, c);
    NegatedMultiple(FloorTo(-from, c), c);
  }

  /** `x` is aligned relative to `base`, so `y` is if and only if its distance to `x` is a multiple of the step. */
  lemma AlignedShift(c: Cadence, base: int, x: int, y: int)
    requires (x - base) % IntervalMs(c) == 0
    ensures (y - base) % IntervalMs(c) == 0 <==> (y - x) % IntervalMs(c) == 0
  {
    var m := (x - base) / IntervalMs(c);
    assert y - base == (y - x) + IntervalMs(c) * m;
    AddMultiple(c, y - x, m);
  }

  lemma PlusStep(c: Cadence, x: int)
    requires x % IntervalMs(c) == 0
    ensures (x + IntervalMs(c)) % IntervalMs(c) == 0
  {
    AddMultiple(c, x, 1);
  }

  /** Consecutive bars of length `step` from `at` that complete by `stop`. */
  function Steps(at: Instant, stop: Instant, step: int): seq<Bar>
    requires step > 0
    decreases stop - at
  {
    if at + step <= stop then [Bar(at, at + step)] + Steps(at + step, stop, step) else []
  }

  function Keep(g: Grid, bars: seq<Bar>, range: TimeRange): seq<Bar> {
    if bars == [] then []
    else (if g.Requested(bars[0], range) then [bars[0]] else []) + Keep(g, bars[1..], range)
  }

  /** All bars of one session, requested or not. */
  function SessionBars(g: Grid, s: Session): seq<Bar> {
    if !InScope(s.kind, g.scope) then []
    else if g.cadence == OneDay then [Bar(s.opensAt, s.closesAt)]
    else Steps(s.opensAt, s.closesAt, g.Interval())
  }

  function SessionsBars(g: Grid, sessions: seq<Session>): seq<Bar> {
    if sessions == [] then [] else SessionBars(g, sessions[0]) + SessionsBars(g, sessions[1..])
  }

  /** The bars a job over `range` expects, in completion order. */
  function Expected(g: Grid, range: TimeRange): seq<Bar> {
    if g.route == CryptoBars then Steps(CeilTo(range.start, g.cadence), range.end, g.Interval())
    else Keep(g, SessionsBars(g, g.sessions), range)
  }

  /** A step in front of the later steps. */
  lemma StepsOrder(at: Instant, stop: Instant, c: Cadence)
    requires at + IntervalMs(c) <= stop
    requires var rest := Steps(at + IntervalMs(c), stop, IntervalMs(c));
             Ordered(rest) && forall b :: b in rest ==> at + IntervalMs(c) <= b.start
    ensures Ordered(Steps(at, stop, IntervalMs(c)))
  {
    OrderedConcat([Bar(at, at + IntervalMs(c))], Steps(at + IntervalMs(c), stop, IntervalMs(c)));
  }

  lemma {:induction false} StepsSpec(at: Instant, stop: Instant, c: Cadence)
    ensures Ordered(Steps(at, stop, IntervalMs(c)))
    ensures forall b :: b in Steps(at, stop, IntervalMs(c)) <==>
              at <= b.start && (b.start - at) % IntervalMs(c) == 0
              && b.completes == b.start + IntervalMs(c) && b.completes <= stop
    decreases stop - at
  {
    if at + IntervalMs(c) <= stop {
      StepsSpec(at + IntervalMs(c), stop, c);
      StepsOrder(at, stop, c);
      forall b ensures b in Steps(at, stop, IntervalMs(c)) <==> StepFrom(c, at, stop, b) {
        NextStep(c, at, b.start);
      }
    }
  }

  /** `b` is a whole step from `at` that completes by `stop`. */
  predicate StepFrom(c: Cadence, at: Instant, stop: Instant, b: Bar) {
    && at <= b.start && (b.start - at) % IntervalMs(c) == 0
    && b.completes == b.start + IntervalMs(c) && b.completes <= stop
  }

  /** An aligned instant from `at` on is `at` itself or aligned from the next step on. */
  lemma NextStep(c: Cadence, at: int, x: int)
    ensures at <= x && (x - at) % IntervalMs(c) == 0
       <==> x == at || (at + IntervalMs(c) <= x && (x - (at + IntervalMs(c))) % IntervalMs(c) == 0)
  {
    assert x - at == x - (at + IntervalMs(c)) + IntervalMs(c) * 1;
    AddMultiple(c, x - (at + IntervalMs(c)), 1);
    if at < x && (x - at) % IntervalMs(c) == 0 { AlignedDisjoint(c, at, at, x); }
  }

  lemma {:induction false} KeepSpec(g: Grid, bars: seq<Bar>, range: TimeRange)
    requires Ordered(bars)
    ensures Ordered(Keep(g, bars, range))
    ensures forall b :: b in Keep(g, bars, range) <==> b in bars && g.Requested(b, range)
  {
    if bars != [] {
      KeepSpec(g, bars[1..], range);
      assert bars == [bars[0]] + bars[1..];
      forall b | b in Keep(g, bars[1..], range) ensures bars[0].completes <= b.start {
        var k :| 0 <= k < |bars[1..]| && bars[1..][k] == b;
      }
    }
  }

  lemma SessionBarsSpec(g: Grid, s: Session)
    requires s.opensAt < s.closesAt && g.route == StockBars
    ensures Ordered(SessionBars(g, s))
    ensures forall b :: b in SessionBars(g, s) <==> g.InSession(s, b)
    ensures forall b :: b in SessionBars(g, s) ==> s.opensAt <= b.start && b.completes <= s.closesAt
  {
    if InScope(s.kind, g.scope) && g.cadence != OneDay {
      StepsSpec(s.opensAt, s.closesAt, g.cadence);
      assert SessionBars(g, s) == Steps(s.opensAt, s.closesAt, g.Interval());
      forall b ensures b in SessionBars(g, s) <==> g.InSession(s, b) {
        assert b in SessionBars(g, s) <==> StepFrom(g.cadence, s.opensAt, s.closesAt, b);
      }
    }
  }

  lemma {:induction false} SessionsBarsSpec(g: Grid, sessions: seq<Session>)
    requires WellFormedSessions(sessions) && g.route == StockBars
    ensures Ordered(SessionsBars(g, sessions))
    ensures forall b :: b in SessionsBars(g, sessions) <==> InSome(g, sessions, b)
  {
    if sessions != [] {
      var head, rest := sessions[0], sessions[1..];
      SessionBarsSpec(g, head);
      SessionsBarsSpec(g, rest);
      forall b ensures InSome(g, sessions, b) <==> g.InSession(head, b) || InSome(g, rest, b) {
        InSomeSplit(g, sessions, b);
      }
      forall a, b | a in SessionBars(g, head) && b in SessionsBars(g, rest) ensures a.completes <= b.start {
        var i :| 0 <= i < |rest| && g.InSession(rest[i], b);
        assert sessions[i + 1] == rest[i] && head.kind == rest[i].kind;
      }
      OrderedConcat(SessionBars(g, head), SessionsBars(g, rest));
    }
  }

  ghost predicate InSome(g: Grid, sessions: seq<Session>, b: Bar) {
    exists i :: 0 <= i < |sessions| && g.InSession(sessions[i], b)
  }

  lemma InSomeSplit(g: Grid, sessions: seq<Session>, b: Bar)
    requires sessions != []
    ensures InSome(g, sessions, b) <==> g.InSession(sessions[0], b) || InSome(g, sessions[1..], b)
  {
    if InSome(g, sessions, b) {
      var i :| 0 <= i < |sessions| && g.InSession(sessions[i], b);
      if i > 0 { assert sessions[1..][i - 1] == sessions[i]; }
    }
    if InSome(g, sessions[1..], b) {
      var i :| 0 <= i < |sessions[1..]| && g.InSession(sessions[1..][i], b);
      assert sessions[i + 1] == sessions[1..][i];
    }
  }

  lemma OrderedTail(bars: seq<Bar>)
    requires Ordered(bars) && bars != []
    ensures Ordered(bars[1..])
    ensures forall b :: b in bars[1..] ==> b in bars && bars[0].completes <= b.start
  {
    forall b | b in bars[1..] ensures b in bars && bars[0].completes <= b.start {
      var k :| 0 <= k < |bars[1..]| && bars[1..][k] == b;
      assert bars[k + 1] == b;
    }
  }

  lemma OrderedConcat(x: seq<Bar>, y: seq<Bar>)
    requires Ordered(x) && Ordered(y)
    requires forall a, b :: a in x && b in y ==> a.completes <= b.start
    ensures Ordered(x + y)
  {
  }

  /** The executor expects exactly the eligible bars of its range, each once, in order. */
  lemma ExpectedSpec(g: Grid, range: TimeRange)
    requires g.Wf()
    ensures Ordered(Expected(g, range))
    ensures forall b :: b in Expected(g, range) <==> g.Eligible(b) && g.Requested(b, range)
  {
    if g.route == CryptoBars {
      var from := CeilTo(range.start, g.cadence);
      CeilSpec(range.start, g.cadence);
      StepsSpec(from, range.end, g.cadence);
      forall b: Bar ensures (from <= b.start && (b.start - from) % g.Interval() == 0)
                            <==> (range.start <= b.start && b.start % g.Interval() == 0)
      {
        AlignedShift(g.cadence, 0, from, b.start);
        if b.start % g.Interval() == 0 && range.start <= b.start < from {
          AlignedDisjoint(g.cadence, 0, b.start, from);
        }
      }
    } else {
      SessionsBarsSpec(g, g.sessions);
      KeepSpec(g, SessionsBars(g, g.sessions), range);
      assert forall b :: g.Eligible(b) <==> InSome(g, g.sessions, b);
    }
  }

  lemma HeadIsUnique(bars: seq<Bar>)
    requires Ordered(bars) && bars != []
    ensures Ordered(bars[1..])
    ensures forall b :: b in bars[1..] <==> b in bars && b != bars[0]
  {
    assert bars == [bars[0]] + bars[1..];
    forall b | b in bars[1..] ensures b != bars[0] {
      var k :| 0 <= k < |bars[1..]| && bars[1..][k] == b;
      assert bars[0].completes <= bars[k + 1].start;
    }
  }

  /** An ordered sequence of bars is determined by which bars it holds. */
  lemma {:induction false} OrderedUnique(x: seq<Bar>, y: seq<Bar>)
    requires Ordered(x) && Ordered(y) && forall b :: b in x <==> b in y
    ensures x == y
  {
    if x == [] {
      assert forall i :: 0 <= i < |y| ==> y[i] in y;
    } else {
      assert x[0] in y && (y != [] ==> y[0] in x);
      assert x[0] == y[0];
      HeadIsUnique(x);
      HeadIsUnique(y);
      OrderedUnique(x[1..], y[1..]);
    }
  }

  lemma KeepConcat(g: Grid, x: seq<Bar>, y: seq<Bar>, range: TimeRange)
    ensures Keep(g, x + y, range) == Keep(g, x, range) + Keep(g, y, range)
  {
    if x == [] {
      assert x + y == y;
    } else {
      assert (x + y)[1..] == x[1..] + y;
    }
  }

  lemma KeepStep(g: Grid, at: Instant, stop: Instant, range: TimeRange)
    requires at + g.Interval() <= stop
    ensures Keep(g, Steps(at, stop, g.Interval()), range)
         == (if g.Requested(Bar(at, at + g.Interval()), range) then [Bar(at, at + g.Interval())] else [])
            + Keep(g, Steps(at + g.Interval(), stop, g.Interval()), range)
  {
    var bars, rest := Steps(at, stop, g.Interval()), Steps(at + g.Interval(), stop, g.Interval());
    assert bars[0] == Bar(at, at + g.Interval()) && bars[1..] == rest;
  }

  /** The inner loop of the enumeration: the requested bars of one session. */
  method RequestedInSession(g: Grid, session: Session, range: TimeRange) returns (result: seq<Bar>)
    requires g.route == StockBars
    ensures result == Keep(g, SessionBars(g, session), range)
  {
    result := [];
    if InScope(session.kind, g.scope) {
      if g.cadence == OneDay {
        if session.closesAt > range.start && session.closesAt <= range.end {
          result := [Bar(session.opensAt, session.closesAt)];
        }
      } else {
        var interval := g.Interval();
        var start := session.opensAt;
        while start + interval <= session.closesAt
          invariant result + Keep(g, Steps(start, session.closesAt, interval), range)
                    == Keep(g, SessionBars(g, session), range)
          decreases session.closesAt - start
        {
          var bar := Bar(start, start + interval);
          KeepStep(g, start, session.closesAt, range);
          if start >= range.start && start + interval <= range.end {
            result := result + [bar];
          }
          start := start + interval;
        }
      }
    }
  }

  method ContinuousBars(start: Instant, end: Instant, interval: int) returns (result: seq<Bar>)
    requires interval > 0
    ensures result == Steps(start, end, interval)
  {
    result := [];
    var at := start;
    while at + interval <= end
      invariant result + Steps(at, end, interval) == Steps(start, end, interval)
      decreases end - at
    {
      result := result + [Bar(at, at + interval)];
      at := at + interval;
    }
  }

  method BarsOverSessions(g: Grid, range: TimeRange) returns (result: seq<Bar>)
    requires g.route == StockBars
    ensures result == Keep(g, SessionsBars(g, g.sessions), range)
  {
    result := [];
    ghost var rest := Keep(g, SessionsBars(g, g.sessions), range);
    for i := 0 to |g.sessions|
      invariant rest == Keep(g, SessionsBars(g, g.sessions[i..]), range)
      invariant result + rest == Keep(g, SessionsBars(g, g.sessions), range)
    {
      assert g.sessions[i..][0] == g.sessions[i] && g.sessions[i..][1..] == g.sessions[i + 1..];
      KeepConcat(g, SessionBars(g, g.sessions[i]), SessionsBars(g, g.sessions[i + 1..]), range);
      var bars := RequestedInSession(g, g.sessions[i], range);
      rest := Keep(g, SessionsBars(g, g.sessions[i + 1..]), range);
      result := result + bars;
    }
  }

  /** The executor's enumeration: a loop over the sessions of the calendar, and inside it a loop over the
      bars of one session.  The final sort by completion changes nothing: the result is already
      `Ordered`. */
  method ExpectedBars(g: Grid, range: TimeRange) returns (result: seq<Bar>)
    requires g.Wf()
    ensures result == Expected(g, range)
    ensures Ordered(result)
    ensures forall b :: b in result <==> g.Eligible(b) && g.Requested(b, range)
  {
    ExpectedSpec(g, range);
    if g.route == CryptoBars {
      result := ContinuousBars(CeilTo(range.start, g.cadence), range.end, g.Interval());
    } else {
      result := BarsOverSessions(g, range);
    }
  }
}
