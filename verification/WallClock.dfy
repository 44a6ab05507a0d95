/** Resolving a market-local wall-clock time to an instant by two passes over the zone offset. */
module WallClock {
  import opened Market

  const DAY := 86_400_000

  /** `local - utc` of the zone at an instant. */
  type Offset = Instant -> int

  /** At instant `t` the clocks of the zone show `wall`. */
  predicate Shows(offset: Offset, t: Instant, wall: int) {
    t + offset(t) == wall
  }

  function Resolved(offset: Offset, wall: int): Instant {
    wall - offset(wall - offset(wall))
  }

  method MarketLocalInstant(offset: Offset, wallClockAsUtc: int) returns (result: Instant)
    ensures result == Resolved(offset, wallClockAsUtc)
  {
    result := wallClockAsUtc;
    for pass := 0 to 2
      invariant result == if pass == 0 then wallClockAsUtc
                          else if pass == 1 then wallClockAsUtc - offset(wallClockAsUtc)
                          else Resolved(offset, wallClockAsUtc)
    {
      result := wallClockAsUtc - offset(result);
    }
  }

  /** Offsets of at most a day that change at most once within a day of the wall time. */
  ghost predicate ChangesOnce(offset: Offset, wall: int, change: Instant, before: int, after: int) {
    && -DAY <= before <= DAY && -DAY <= after <= DAY
    && (forall t :: -DAY <= offset(t) <= DAY)
    && forall t :: wall - DAY <= t <= wall + DAY ==> offset(t) == if t < change then before else after
  }

  /** Only two instants can show the wall time: one for each offset, on its side of the change. */
  lemma OnlyTwoCandidates(offset: Offset, wall: int, change: Instant, before: int, after: int, t: Instant)
    requires ChangesOnce(offset, wall, change, before, after)
    ensures Shows(offset, t, wall) <==> (t == wall - before && t < change) || (t == wall - after && change <= t)
  {
    assert -DAY <= offset(t) <= DAY;
  }

  /** Two passes suffice: the result shows the wall time if and only if any instant does. */
  lemma TwoPassesSuffice(offset: Offset, wall: int, change: Instant, before: int, after: int)
    requires ChangesOnce(offset, wall, change, before, after)
    ensures Shows(offset, Resolved(offset, wall), wall) <==> exists t :: Shows(offset, t, wall)
  {
    if t :| Shows(offset, t, wall) {
      OnlyTwoCandidates(offset, wall, change, before, after, t);
    }
  }

  /** In particular, when exactly one instant shows the wall time, it is the result. */
  lemma UniqueInstantIsFound(offset: Offset, wall: int, change: Instant, before: int, after: int, only: Instant)
    requires ChangesOnce(offset, wall, change, before, after)
    requires Shows(offset, only, wall) && forall t :: Shows(offset, t, wall) ==> t == only
    ensures Resolved(offset, wall) == only
  {
    TwoPassesSuffice(offset, wall, change, before, after);
  }

  /** A wall time that occurs on both sides of the change resolves to its first occurrence exactly when, read as UTC,
      it comes before the change; otherwise it resolves to the second. */
  lemma RepeatedTime(offset: Offset, wall: int, change: Instant, before: int, after: int)
    requires ChangesOnce(offset, wall, change, before, after) && before != after
    requires Shows(offset, wall - before, wall) && Shows(offset, wall - after, wall)
    ensures wall - before < change <= wall - after
    ensures Resolved(offset, wall) == if wall < change then wall - before else wall - after
  {
    OnlyTwoCandidates(offset, wall, change, before, after, wall - before);
    OnlyTwoCandidates(offset, wall, change, before, after, wall - after);
  }

  /** In New York, where the offset is not positive, that is always the first occurrence. */
  lemma FirstOccurrence(offset: Offset, wall: int, change: Instant, before: int, after: int, t: Instant)
    requires ChangesOnce(offset, wall, change, before, after) && before <= 0
    requires Shows(offset, t, wall)
    ensures Shows(offset, Resolved(offset, wall), wall) && Resolved(offset, wall) <= t
  {
    TwoPassesSuffice(offset, wall, change, before, after);
    OnlyTwoCandidates(offset, wall, change, before, after, t);
    OnlyTwoCandidates(offset, wall, change, before, after, Resolved(offset, wall));
  }

  /** East of Greenwich it can be the second. */
  lemma SecondOccurrenceEast()
    ensures var offset := (t: Instant) => if t < 0 then 7_200_000 else 3_600_000;
            && ChangesOnce(offset, 5_400_000, 0, 7_200_000, 3_600_000)
            && Shows(offset, -1_800_000, 5_400_000) && Resolved(offset, 5_400_000) == 1_800_000
  {
  }

  /** The hypothesis of one change is sharp: with an offset that changes twice within a day, which New York's never
      does, two passes could miss the only instant there is. */
  lemma TwoChangesCanMiss()
    ensures var hour := 3_600_000;
            var offset := (t: Instant) =>
              if t < hour then -2 * hour else if t < 3 * hour then -4 * hour else -5 * hour;
            && (forall t :: Shows(offset, t, 0) <==> t == 5 * hour)
            && !Shows(offset, Resolved(offset, 0), 0)
  {
  }
}
