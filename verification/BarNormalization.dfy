/** Normalisation of one provider bar against the session grid. */
module BarNormalization {
  import opened Market
  import opened SessionGrid
  import opened Schedule

  datatype RejectionCode =
    | WrongInstrument | InvalidTimestamp | InvalidNumericValue | InvalidOhlc | InvalidActivity
    | SessionMismatch | GridMismatch

  /** Why a bar was rejected: one constructor for each message, each with its code. */
  datatype Rejection =
    | ForeignSymbol | BadTimestamp | BadNumber | BadRange | BadActivity
    | CryptoScope | OffUtcGrid | EquityScope | DailyScope | NoRegularSession
    | OutsideSession(scope: SessionScope) | OffSessionGrid | StraddlesClose(scope: SessionScope)
  {
    function Code(): RejectionCode {
      match this
      case ForeignSymbol => WrongInstrument
      case BadTimestamp => InvalidTimestamp
      case BadNumber => InvalidNumericValue
      case BadRange => InvalidOhlc
      case BadActivity => InvalidActivity
      case OffUtcGrid => GridMismatch
      case OffSessionGrid => GridMismatch
      case _ => SessionMismatch
    }
  }

  /** A provider bar.  Its numbers are carried as `values`; `fault` is what validating them found. */
  datatype SourceBar = SourceBar(symbol: string, timestamp: Option<Instant>, values: string,
                                 fault: Option<Rejection>, dataVariant: string)

  datatype NormalizedBar = NormalizedBar(
    instrumentId: string, interval: Cadence, barStart: Instant, barEnd: Instant, marketDate: string,
    sessionKind: SessionScope, isShortenedSession: bool, logicalDataVariant: string, values: string,
    sourceTimestamp: Instant)
  {
    function GridBar(): Bar { Bar(barStart, barEnd) }
  }

  datatype Candidate = Normalized(bar: NormalizedBar) | Rejected(why: Rejection)

  /** New York and UTC calendar dates of an instant. */
  datatype Dates = Dates(newYork: Instant -> string, utc: Instant -> string)

  /** The first Regular session of a market date. */
  function RegularSessionOn(sessions: seq<Session>, date: string): Option<Session> {
    if sessions == [] then None
    else if sessions[0].kind == Regular && sessions[0].marketDate == date then Some(sessions[0])
    else RegularSessionOn(sessions[1..], date)
  }

  function Normalize(source: SourceBar, symbol: string, g: Grid, dates: Dates): Candidate {
    if source.symbol != symbol then Rejected(ForeignSymbol)
    else if source.fault.Some? then Rejected(source.fault.value)
    else if source.timestamp.None? then Rejected(BadTimestamp)
    else
      var at := source.timestamp.value;
      if g.route == CryptoBars then
        if g.scope != AllTrading then Rejected(CryptoScope)
        else if at % g.Interval() != 0 then Rejected(OffUtcGrid)
        else Normalized(NormalizedBar(symbol, g.cadence, at, at + g.Interval(), dates.utc(at), AllTrading, false,
                                      source.dataVariant, source.values, at))
      else if g.scope == AllTrading then Rejected(EquityScope)
      else if g.cadence == OneDay then
        if g.scope != RegularScope then Rejected(DailyScope)
        else
          var session := RegularSessionOn(g.sessions, dates.newYork(at));
          if session.None? then Rejected(NoRegularSession)
          else EquityBar(source, symbol, g, session.value, session.value.opensAt, session.value.closesAt)
      else
        var session := CurrentSession(g, g.sessions, at);
        if session.None? then Rejected(OutsideSession(g.scope))
        else if (at - session.value.opensAt) % g.Interval() != 0 then Rejected(OffSessionGrid)
        else if at + g.Interval() > session.value.closesAt then Rejected(StraddlesClose(g.scope))
        else EquityBar(source, symbol, g, session.value, at, at + g.Interval())
  }

  function EquityBar(source: SourceBar, symbol: string, g: Grid, session: Session, start: Instant,
                     end: Instant): Candidate
    requires source.timestamp.Some?
  {
    Normalized(NormalizedBar(symbol, g.cadence, start, end, session.marketDate, g.scope, session.isShortened,
                             source.dataVariant, source.values, source.timestamp.value))
  }

  lemma {:induction false} RegularSessionOnSpec(sessions: seq<Session>, date: string)
    ensures var s := RegularSessionOn(sessions, date);
            s.Some? ==> s.value in sessions && s.value.kind == Regular && s.value.marketDate == date
  {
    if sessions != [] { RegularSessionOnSpec(sessions[1..], date); }
  }

  function Candidates(bars: seq<SourceBar>, symbol: string, g: Grid, dates: Dates): (r: seq<Candidate>)
    ensures |r| == |bars|
  {
    seq(|bars|, i requires 0 <= i < |bars| => Normalize(bars[i], symbol, g, dates))
  }

  lemma CandidatesConcat(x: seq<SourceBar>, y: seq<SourceBar>, symbol: string, g: Grid, dates: Dates)
    ensures Candidates(x + y, symbol, g, dates) == Candidates(x, symbol, g, dates) + Candidates(y, symbol, g, dates)
  {
  }

  /** What a normalised bar says.  The provider's numbers, variant and timestamp are kept.  A crypto bar starts there
      and belongs to that UTC date; an equity bar lies in a session of the calendar, which gives its date and whether it
      is shortened: an intraday bar starts at the timestamp, a daily bar is the session of the New York date. */
  lemma NormalizedBarSays(source: SourceBar, symbol: string, g: Grid, dates: Dates)
    requires Normalize(source, symbol, g, dates).Normalized?
    ensures var bar, at := Normalize(source, symbol, g, dates).bar, source.timestamp.value;
            && source.symbol == symbol == bar.instrumentId && source.fault.None? && bar.interval == g.cadence
            && bar.sessionKind == g.scope && bar.values == source.values
            && bar.logicalDataVariant == source.dataVariant && bar.sourceTimestamp == at
            && (g.route == CryptoBars ==>
                  bar.GridBar() == Bar(at, at + g.Interval()) && bar.marketDate == dates.utc(bar.barStart)
                  && !bar.isShortenedSession)
            && (g.route == StockBars ==>
                  exists s :: s in g.sessions && InScope(s.kind, g.scope) && g.InSession(s, bar.GridBar())
                    && bar.marketDate == s.marketDate && bar.isShortenedSession == s.isShortened
                    && if g.cadence == OneDay then s.marketDate == dates.newYork(at) else bar.barStart == at)
  {
    var at := source.timestamp.value;
    if g.route == StockBars {
      RegularSessionOnSpec(g.sessions, dates.newYork(at));
      CurrentSessionSpec(g, g.sessions, at);
      var s := if g.cadence == OneDay then RegularSessionOn(g.sessions, dates.newYork(at)).value
               else CurrentSession(g, g.sessions, at).value;
      assert g.InSession(s, Normalize(source, symbol, g, dates).bar.GridBar());
    }
  }

  /** The session `s` of the requested kind is open at `at`. */
  predicate OpenAt(g: Grid, s: Session, at: Instant) { InScope(s.kind, g.scope) && s.opensAt <= at < s.closesAt }

  /** What each message asserts of the bar.  The three about numbers are found by validating the values. */
  ghost predicate Applies(why: Rejection, source: SourceBar, symbol: string, g: Grid, dates: Dates) {
    var crypto, daily := g.route == CryptoBars, g.cadence == OneDay;
    match why
    case ForeignSymbol => source.symbol != symbol
    case BadTimestamp => source.timestamp.None?
    case BadNumber | BadRange | BadActivity => source.fault == Some(why)
    case CryptoScope => crypto && g.scope != AllTrading
    case EquityScope => !crypto && g.scope == AllTrading
    case DailyScope => !crypto && daily && g.scope == PremarketScope
    case _ => source.timestamp.Some? && PlacementApplies(why, source.timestamp.value, g, dates)
  }

  ghost predicate PlacementApplies(why: Rejection, at: Instant, g: Grid, dates: Dates) {
    var daily := g.route == StockBars && g.cadence == OneDay;
    match why
    case OffUtcGrid => g.route == CryptoBars && at % g.Interval() != 0
    case NoRegularSession =>
      daily && (forall s :: s in g.sessions && s.kind == Regular ==> s.marketDate != dates.newYork(at))
    case OutsideSession(scope) =>
      g.IntradayEquity() && scope == g.scope && (forall s :: s in g.sessions ==> !OpenAt(g, s, at))
    case OffSessionGrid =>
      g.IntradayEquity() && (exists s :: s in g.sessions && OpenAt(g, s, at) && (at - s.opensAt) % g.Interval() != 0)
    case StraddlesClose(scope) =>
      g.IntradayEquity() && scope == g.scope
      && (exists s :: s in g.sessions && OpenAt(g, s, at) && s.closesAt < at + g.Interval())
    case _ => false
  }

  /** Validating values finds one of the three things that can be wrong with numbers, or nothing. */
  predicate FaultOfValues(source: SourceBar) {
    source.fault.Some? ==> source.fault.value in {BadNumber, BadRange, BadActivity}
  }

  lemma {:induction false} NoRegularSessionOn(sessions: seq<Session>, date: string)
    requires RegularSessionOn(sessions, date).None?
    ensures forall s :: s in sessions && s.kind == Regular ==> s.marketDate != date
  {
    if sessions != [] { NoRegularSessionOn(sessions[1..], date); }
  }

  lemma {:induction false} NoCurrentSession(g: Grid, sessions: seq<Session>, at: Instant)
    requires CurrentSession(g, sessions, at).None?
    ensures forall s :: s in sessions ==> !OpenAt(g, s, at)
  {
    if sessions != [] { NoCurrentSession(g, sessions[1..], at); }
  }

  /** A rejected bar is rejected for a reason that applies. */
  lemma RejectedTruly(source: SourceBar, symbol: string, g: Grid, dates: Dates)
    requires g.Wf() && FaultOfValues(source) && Normalize(source, symbol, g, dates).Rejected?
    ensures Applies(Normalize(source, symbol, g, dates).why, source, symbol, g, dates)
  {
    if g.route == StockBars && source.timestamp.Some? {
      var at := source.timestamp.value;
      var daily, open := RegularSessionOn(g.sessions, dates.newYork(at)), CurrentSession(g, g.sessions, at);
      if daily.None? { NoRegularSessionOn(g.sessions, dates.newYork(at)); }
      if open.None? { NoCurrentSession(g, g.sessions, at); }
      CurrentSessionSpec(g, g.sessions, at);
    }
  }

  /** A bar that normalises gives no message a reason to apply. */
  lemma NormalizedCleanly(source: SourceBar, symbol: string, g: Grid, dates: Dates, why: Rejection)
    requires g.Wf() && Normalize(source, symbol, g, dates).Normalized?
    ensures !Applies(why, source, symbol, g, dates)
  {
    var at := source.timestamp.value;
    if g.route == StockBars {
      if g.cadence == OneDay {
        RegularSessionOnSpec(g.sessions, dates.newYork(at));
      } else {
        CurrentSessionSpec(g, g.sessions, at);
        forall s | s in g.sessions && OpenAt(g, s, at) ensures CurrentSession(g, g.sessions, at) == Some(s) {
          var i :| 0 <= i < |g.sessions| && g.sessions[i] == s;
          CurrentSessionFound(g, g.sessions, at, i);
        }
      }
    }
  }

  /** A bar normalises exactly when no message applies to it; a rejected bar gives a message that does. */
  lemma NormalizesIffNothingApplies(source: SourceBar, symbol: string, g: Grid, dates: Dates)
    requires g.Wf() && FaultOfValues(source)
    ensures var c := Normalize(source, symbol, g, dates);
            && (c.Normalized? <==> forall why :: !Applies(why, source, symbol, g, dates))
            && (c.Rejected? ==> Applies(c.why, source, symbol, g, dates))
  {
    if Normalize(source, symbol, g, dates).Normalized? {
      forall why ensures !Applies(why, source, symbol, g, dates) {
        NormalizedCleanly(source, symbol, g, dates, why);
      }
    } else {
      RejectedTruly(source, symbol, g, dates);
    }
  }

  /** Whatever normalises is a bar of the calendar-eligible grid, for every cadence and route. */
  lemma NormalizedIsEligible(source: SourceBar, symbol: string, g: Grid, dates: Dates)
    requires g.Wf() && Normalize(source, symbol, g, dates).Normalized?
    ensures g.Eligible(Normalize(source, symbol, g, dates).bar.GridBar())
  {
    var at := source.timestamp.value;
    var b := Normalize(source, symbol, g, dates).bar.GridBar();
    if g.route == StockBars {
      RegularSessionOnSpec(g.sessions, dates.newYork(at));
      CurrentSessionSpec(g, g.sessions, at);
      var s := if g.cadence == OneDay then RegularSessionOn(g.sessions, dates.newYork(at)).value
               else CurrentSession(g, g.sessions, at).value;
      var i :| 0 <= i < |g.sessions| && g.sessions[i] == s;
      assert g.InSession(g.sessions[i], b);
    }
  }

  /** The normaliser and the executor's enumeration agree: an intraday or crypto bar with valid values
      normalises exactly when the enumeration of a range around it expects a bar starting there. */
  lemma NormalizesIffExpected(source: SourceBar, symbol: string, g: Grid, dates: Dates, range: TimeRange)
    requires g.Wf() && !g.DailyEquity() && (g.route == CryptoBars <==> g.scope == AllTrading)
    requires source.symbol == symbol && source.fault == None && source.timestamp.Some?
    requires range.start <= source.timestamp.value && source.timestamp.value + g.Interval() <= range.end
    ensures Normalize(source, symbol, g, dates).Normalized?
       <==> Bar(source.timestamp.value, source.timestamp.value + g.Interval()) in Expected(g, range)
    ensures Normalize(source, symbol, g, dates).Normalized?
       ==> Normalize(source, symbol, g, dates).bar.GridBar() == Bar(source.timestamp.value,
                                                                    source.timestamp.value + g.Interval())
  {
    var at := source.timestamp.value;
    ExpectedSpec(g, range);
    if Normalize(source, symbol, g, dates).Normalized? { NormalizedIsEligible(source, symbol, g, dates); }
    if g.Eligible(Bar(at, at + g.Interval())) { EligibleNormalizes(source, symbol, g, dates); }
  }

  /** A valid bar that starts a bar of the grid normalises. */
  lemma EligibleNormalizes(source: SourceBar, symbol: string, g: Grid, dates: Dates)
    requires g.Wf() && !g.DailyEquity() && (g.route == CryptoBars <==> g.scope == AllTrading)
    requires source.symbol == symbol && source.fault == None && source.timestamp.Some?
    requires g.Eligible(Bar(source.timestamp.value, source.timestamp.value + g.Interval()))
    ensures Normalize(source, symbol, g, dates).Normalized?
  {
    var at := source.timestamp.value;
    if g.route == StockBars {
      var i :| 0 <= i < |g.sessions| && g.InSession(g.sessions[i], Bar(at, at + g.Interval()));
      CurrentSessionFound(g, g.sessions, at, i);
      assert CurrentSession(g, g.sessions, at) == Some(g.sessions[i]);
      assert (at - g.sessions[i].opensAt) % g.Interval() == 0 && at + g.Interval() <= g.sessions[i].closesAt;
    }
  }
}
