/** A chair's location history: positions in the order they were taken, each acknowledged by
    the server or not, and the three ways in which the simulator reads it. */
module Location {
  import opened Grid
  import opened Wrappers

  /** A recorded position. The server time is present once the server has acknowledged it. */
  datatype Entry = Entry(coord: Coord, time: int, serverTime: Option<int>)

  datatype Period = Period(since: int, until: Option<int>)

  // ---- What the queries answer -------------------------------------------------------

  predicate AckedBy(e: Entry, t: int) {
    e.serverTime.Some? && e.serverTime.value <= t
  }

  /** The last position acknowledged at or before t, in list order. */
  function CoordAt(default: Coord, es: seq<Entry>, t: int): Coord
    decreases |es|
  {
    if es == [] then default
    else CoordAt(if AckedBy(es[0], t) then es[0].coord else default, es[1..], t)
  }

  /** The periods spent at c, given the period still open. */
  function PeriodsFrom(open: Option<int>, es: seq<Entry>, c: Coord): seq<Period>
    decreases |es|
  {
    if es == [] then
      if open.Some? then [Period(open.value, None)] else []
    else if es[0].serverTime.None? then PeriodsFrom(open, es[1..], c)
    else
      (if open.Some? then [Period(open.value, es[0].serverTime)] else []) +
      PeriodsFrom(if es[0].coord == c then es[0].serverTime else None, es[1..], c)
  }

  /** The distance over acknowledged positions up to the first one acknowledged too late. */
  function DistanceUntil(prev: Coord, es: seq<Entry>, until: int): nat
    decreases |es|
  {
    if es == [] then 0
    else if es[0].serverTime.None? then DistanceUntil(prev, es[1..], until)
    else if es[0].serverTime.value > until then 0
    else Dist(prev, es[0].coord) + DistanceUntil(es[0].coord, es[1..], until)
  }

  /** The distance over all positions. */
  function PathFrom(prev: Coord, es: seq<Entry>): nat
    decreases |es|
  {
    if es == [] then 0 else Dist(prev, es[0].coord) + PathFrom(es[0].coord, es[1..])
  }

  // ---- The history as objects --------------------------------------------------------

  class LocationEntry {
    const coord: Coord
    const time: int
    var serverTime: Option<int>

    constructor (coord: Coord, time: int)
      ensures this.coord == coord && this.time == time && serverTime == None
    {
      this.coord, this.time, serverTime := coord, time, None;
    }
  }

  class ChairLocation {
    const initial: Coord
    var current: LocationEntry?
    var history: seq<LocationEntry>
    var totalTravelDistance: nat
    var dirty: bool
    ghost var entries: seq<Entry>

    ghost predicate Valid()
      reads this, history
    {
      && |entries| == |history|
      && (forall i | 0 <= i < |history| ::
            entries[i] == Entry(history[i].coord, history[i].time, history[i].serverTime))
      && (forall i, j | 0 <= i < j < |history| :: history[i] != history[j])
      && current == if history == [] then null else history[|history| - 1]
    }

    /** The chair was placed once, at its initial position, and has moved since. */
    ghost predicate Travelled()
      reads this
    {
      entries != [] && entries[0].coord == initial && totalTravelDistance == PathFrom(initial, entries)
    }

    constructor (initial: Coord)
      ensures Valid() && this.initial == initial && entries == [] && !dirty && totalTravelDistance == 0
    {
      this.initial, current, history, totalTravelDistance, dirty := initial, null, [], 0, false;
      entries := [];
    }

    method Current() returns (c: Coord)
      requires Valid()
      ensures c == if entries == [] then initial else entries[|entries| - 1].coord
    {
      if current == null {
        return initial;
      }
      return current.coord;
    }

    method PlaceTo(location: LocationEntry)
      requires Valid() && location !in history
      modifies this
      ensures Valid() && dirty && totalTravelDistance == old(totalTravelDistance)
      ensures entries == old(entries) + [Entry(location.coord, location.time, location.serverTime)]
      ensures old(entries) == [] && old(totalTravelDistance) == 0 && location.coord == initial ==> Travelled()
    {
      history := history + [location];
      current := location;
      dirty := true;
      entries := entries + [Entry(location.coord, location.time, location.serverTime)];
      assert entries[1..] == [] <==> old(entries) == [];
    }

    method MoveTo(location: LocationEntry)
      requires Valid() && location !in history && history != []
      modifies this
      ensures Valid() && dirty
      ensures entries == old(entries) + [Entry(location.coord, location.time, location.serverTime)]
      ensures totalTravelDistance ==
              old(totalTravelDistance) + Dist(old(entries[|entries| - 1]).coord, location.coord)
      ensures old(Travelled()) ==> Travelled()
    {
      PathAppend(initial, entries, Entry(location.coord, location.time, location.serverTime));
      history := history + [location];
      totalTravelDistance := totalTravelDistance + Dist(current.coord, location.coord);
      current := location;
      dirty := true;
      entries := entries + [Entry(location.coord, location.time, location.serverTime)];
    }

    method SetServerTime(serverTime: int)
      requires Valid() && history != []
      modifies this`entries, current
      ensures Valid()
      ensures var k := |old(entries)| - 1;
              entries == old(entries)[k := old(entries)[k].(serverTime := Some(serverTime))]
      ensures old(Travelled()) ==> Travelled()
    {
      var k := |history| - 1;
      PathIgnoresTimes(initial, entries, k, Some(serverTime));
      current.serverTime := Some(serverTime);
      entries := entries[k := entries[k].(serverTime := Some(serverTime))];
    }

    method TotalTravelDistanceUntil(until: int) returns (sum: nat)
      requires Valid()
      ensures sum == DistanceUntil(initial, entries, until)
    {
      sum := 0;
      var prev := initial;
      for i := 0 to |history|
        invariant sum + DistanceUntil(prev, entries[i..], until) == DistanceUntil(initial, entries, until)
      {
        assert entries[i..][1..] == entries[i + 1..];
        var entry := history[i];
        if entry.serverTime.Some? {
          if entry.serverTime.value > until {
            return;
          } else {
            sum := sum + Dist(prev, entry.coord);
            prev := entry.coord;
          }
        }
      }
    }

    method GetPeriodsByCoord(c: Coord) returns (result: seq<Period>)
      requires Valid()
      ensures result == PeriodsFrom(None, entries, c)
    {
      result := [];
      var open: Option<int> := None;
      for i := 0 to |history|
        invariant result + PeriodsFrom(open, entries[i..], c) == PeriodsFrom(None, entries, c)
      {
        assert entries[i..][1..] == entries[i + 1..];
        var entry := history[i];
        if open.Some? && entry.serverTime.Some? {
          result := result + [Period(open.value, entry.serverTime)];
          open := None;
        }
        if entry.coord == c && entry.serverTime.Some? {
          open := Some(entry.serverTime.value);
        }
      }
      if open.Some? {
        result := result + [Period(open.value, None)];
      }
    }

    method GetCoordByTime(t: int) returns (c: Coord)
      requires Valid()
      ensures c == CoordAt(initial, entries, t)
      ensures
        || (c == initial && forall j | 0 <= j < |entries| :: !AckedBy(entries[j], t))
        || (exists k | 0 <= k < |entries| ::
              AckedBy(entries[k], t) && c == entries[k].coord && forall j | k < j < |entries| :: !AckedBy(entries[j], t))
    {
      var i := |history|;
      assert entries[..i] == entries;
      while i > 0
        invariant 0 <= i <= |history|
        invariant CoordAt(initial, entries, t) == CoordAt(initial, entries[..i], t)
        invariant forall j | i <= j < |entries| :: !AckedBy(entries[j], t)
      {
        i := i - 1;
        assert entries[..i + 1] == entries[..i] + [entries[i]];
        CoordAtAppend(initial, entries[..i], entries[i], t);
        var entry := history[i];
        if entry.serverTime.Some? && !(entry.serverTime.value > t) {
          assert AckedBy(entries[i], t);
          return entry.coord;
        }
      }
      return initial;
    }
  }

  lemma {:induction false} PathAppend(prev: Coord, es: seq<Entry>, e: Entry)
    ensures PathFrom(prev, es + [e]) ==
            PathFrom(prev, es) + Dist(if es == [] then prev else es[|es| - 1].coord, e.coord)
    decreases |es|
  {
    if es == [] {
      assert [e][1..] == [];
    } else {
      assert (es + [e])[1..] == es[1..] + [e];
      PathAppend(es[0].coord, es[1..], e);
    }
  }

  lemma {:induction false} PathIgnoresTimes(prev: Coord, es: seq<Entry>, k: nat, time: Option<int>)
    requires k < |es|
    ensures PathFrom(prev, es[k := es[k].(serverTime := time)]) == PathFrom(prev, es)
    decreases |es|
  {
    var changed := es[k := es[k].(serverTime := time)];
    if k == 0 {
      assert changed[1..] == es[1..];
    } else {
      assert changed[1..] == es[1..][k - 1 := es[1..][k - 1].(serverTime := time)];
      PathIgnoresTimes(es[0].coord, es[1..], k - 1, time);
    }
  }

  lemma {:induction false} CoordAtAppend(default: Coord, es: seq<Entry>, e: Entry, t: int)
    ensures CoordAt(default, es + [e], t) == if AckedBy(e, t) then e.coord else CoordAt(default, es, t)
    decreases |es|
  {
    if es == [] {
      assert [e][1..] == [];
    } else {
      assert (es + [e])[1..] == es[1..] + [e];
      CoordAtAppend(if AckedBy(es[0], t) then es[0].coord else default, es[1..], e, t);
    }
  }

  // ---- The queries agree -------------------------------------------------------------

  /** Acknowledgements arrive in non-decreasing server time. */
  ghost predicate Ordered(es: seq<Entry>) {
    forall i, j | 0 <= i < j < |es| && es[i].serverTime.Some? && es[j].serverTime.Some? ::
      es[i].serverTime.value <= es[j].serverTime.value
  }

  ghost predicate AllAfter(es: seq<Entry>, t: int) {
    forall i | 0 <= i < |es| && es[i].serverTime.Some? :: es[i].serverTime.value >= t
  }

  predicate Contains(p: Period, t: int) {
    p.since <= t && (p.until.Some? ==> t < p.until.value)
  }

  ghost predicate Covers(ps: seq<Period>, t: int) {
    exists i | 0 <= i < |ps| :: Contains(ps[i], t)
  }

  lemma CoversAppend(ps: seq<Period>, qs: seq<Period>, t: int)
    ensures Covers(ps + qs, t) <==> Covers(ps, t) || Covers(qs, t)
  {
    if Covers(ps, t) {
      var i :| 0 <= i < |ps| && Contains(ps[i], t);
      assert (ps + qs)[i] == ps[i];
    }
    if Covers(qs, t) {
      var i :| 0 <= i < |qs| && Contains(qs[i], t);
      assert (ps + qs)[|ps| + i] == qs[i];
    }
  }

  lemma CoversOne(p: Period, t: int)
    ensures Covers([p], t) <==> Contains(p, t)
  {
    assert [p][0] == p;
  }

  lemma {:induction false} LaterPeriodsMiss(open: Option<int>, es: seq<Entry>, c: Coord, t: int)
    requires AllAfter(es, t + 1) && (open.Some? ==> open.value > t)
    ensures !Covers(PeriodsFrom(open, es, c), t) && CoordAt(c, es, t) == c
    decreases |es|
  {
    if es != [] {
      assert forall i | 0 <= i < |es[1..]| :: es[1..][i] == es[i + 1];
      if es[0].serverTime.None? {
        LaterPeriodsMiss(open, es[1..], c, t);
      } else {
        var next := if es[0].coord == c then es[0].serverTime else None;
        LaterPeriodsMiss(next, es[1..], c, t);
        if open.Some? {
          CoversOne(Period(open.value, es[0].serverTime), t);
          CoversAppend([Period(open.value, es[0].serverTime)], PeriodsFrom(next, es[1..], c), t);
        } else {
          assert [] + PeriodsFrom(next, es[1..], c) == PeriodsFrom(next, es[1..], c);
        }
      }
    }
  }

  lemma {:induction false} UnmovedUntil(default: Coord, es: seq<Entry>, t: int)
    requires AllAfter(es, t + 1)
    ensures CoordAt(default, es, t) == default
    decreases |es|
  {
    if es != [] {
      assert forall i | 0 <= i < |es[1..]| :: es[1..][i] == es[i + 1];
      UnmovedUntil(default, es[1..], t);
    }
  }

  /** The agreement from a position `last`, acknowledged at `since`, on. */
  lemma {:induction false} PeriodsMatchFrom(last: Coord, since: int, es: seq<Entry>, c: Coord, t: int)
    requires since <= t && Ordered(es) && AllAfter(es, since)
    ensures CoordAt(last, es, t) == c <==> Covers(PeriodsFrom(if last == c then Some(since) else None, es, c), t)
    decreases |es|
  {
    var open := if last == c then Some(since) else None;
    if es == [] {
      if open.Some? {
        CoversOne(Period(since, None), t);
      }
    } else {
      var rest := es[1..];
      assert forall i | 0 <= i < |rest| :: rest[i] == es[i + 1];
      if es[0].serverTime.None? {
        PeriodsMatchFrom(last, since, rest, c, t);
      } else {
        var t0 := es[0].serverTime.value;
        var next := if es[0].coord == c then Some(t0) else None;
        var closed: seq<Period> := if open.Some? then [Period(since, Some(t0))] else [];
        CoversAppend(closed, PeriodsFrom(next, rest, c), t);
        CoversOne(Period(since, Some(t0)), t);
        if t0 > t {
          assert AllAfter(rest, t + 1);
          LaterPeriodsMiss(next, rest, c, t);
          UnmovedUntil(last, rest, t);
        } else {
          PeriodsMatchFrom(es[0].coord, t0, rest, c, t);
        }
      }
    }
  }

  ghost predicate StartedBy(es: seq<Entry>, t: int) {
    exists i | 0 <= i < |es| :: AckedBy(es[i], t)
  }

  /** Before the first acknowledgement in a list the position and its period are still open. */
  lemma {:induction false} StillOpen(default: Coord, since: int, es: seq<Entry>, c: Coord, t: int)
    requires since <= t && !StartedBy(es, t)
    ensures CoordAt(default, es, t) == default && Covers(PeriodsFrom(Some(since), es, c), t)
    decreases |es|
  {
    if es == [] {
      CoversOne(Period(since, None), t);
    } else {
      var rest := es[1..];
      assert !AckedBy(es[0], t);
      assert forall i | 0 <= i < |rest| :: rest[i] == es[i + 1];
      StillOpen(default, since, rest, c, t);
      if es[0].serverTime.Some? {
        CoversOne(Period(since, es[0].serverTime), t);
        CoversAppend([Period(since, es[0].serverTime)],
                     PeriodsFrom(if es[0].coord == c then es[0].serverTime else None, rest, c), t);
      }
    }
  }

  /** Whatever the server times are, in whatever order: from the first acknowledgement on, t
      lies in one of the periods reported for the coordinate at which the chair is at t. */
  lemma {:induction false} HeldIsCovered(default: Coord, open: Option<int>, es: seq<Entry>, t: int)
    requires StartedBy(es, t)
    ensures Covers(PeriodsFrom(open, es, CoordAt(default, es, t)), t)
    decreases |es|
  {
    var rest, c := es[1..], CoordAt(default, es, t);
    assert forall i | 0 <= i < |rest| :: rest[i] == es[i + 1];
    var k :| 0 <= k < |es| && AckedBy(es[k], t);
    assert k > 0 ==> AckedBy(rest[k - 1], t);
    if es[0].serverTime.None? {
      HeldIsCovered(default, open, rest, t);
    } else {
      var closed: seq<Period> := if open.Some? then [Period(open.value, es[0].serverTime)] else [];
      var next := if es[0].coord == c then es[0].serverTime else None;
      if StartedBy(rest, t) {
        HeldIsCovered(if AckedBy(es[0], t) then es[0].coord else default, next, rest, t);
      } else {
        StillOpen(es[0].coord, es[0].serverTime.value, rest, c, t);
      }
      CoversAppend(closed, PeriodsFrom(next, rest, c), t);
    }
  }

  /** From its first acknowledgement on, a chair is at c at time t exactly when t lies in one
      of the half-open periods reported for c. */
  lemma {:induction false} PeriodsMatchCoord(initial: Coord, es: seq<Entry>, c: Coord, t: int)
    requires Ordered(es) && StartedBy(es, t)
    ensures CoordAt(initial, es, t) == c <==> Covers(PeriodsFrom(None, es, c), t)
    decreases |es|
  {
    var rest := es[1..];
    assert forall i | 0 <= i < |rest| :: rest[i] == es[i + 1];
    if es[0].serverTime.None? {
      var i :| 0 <= i < |es| && AckedBy(es[i], t);
      assert AckedBy(rest[i - 1], t);
      PeriodsMatchCoord(initial, rest, c, t);
    } else {
      var t0 := es[0].serverTime.value;
      var next := if es[0].coord == c then Some(t0) else None;
      assert AllAfter(rest, t0);
      PeriodsMatchFrom(es[0].coord, t0, rest, c, t);
      assert [] + PeriodsFrom(next, rest, c) == PeriodsFrom(next, rest, c);
    }
  }

  // ---- When the queries agree without order ------------------------------------------

  /** The acknowledged positions. */
  function Acked(es: seq<Entry>): (r: seq<Entry>)
    ensures forall i | 0 <= i < |r| :: r[i].serverTime.Some?
    decreases |es|
  {
    if es == [] then []
    else if es[0].serverTime.None? then Acked(es[1..])
    else [es[0]] + Acked(es[1..])
  }

  ghost predicate AllAcked(es: seq<Entry>) {
    forall i | 0 <= i < |es| :: es[i].serverTime.Some?
  }

  /** From a position's acknowledgement to the next one in the list. */
  function PeriodAt(es: seq<Entry>, i: nat): Period
    requires i < |es| && es[i].serverTime.Some?
  {
    Period(es[i].serverTime.value, if i + 1 < |es| then es[i + 1].serverTime else None)
  }

  predicate Overlap(p: Period, q: Period) {
    var t := Max(p.since, q.since);
    Contains(p, t) && Contains(q, t)
  }

  /** No two acknowledged positions at different coordinates have overlapping periods. */
  ghost predicate NoOverlap(es: seq<Entry>)
    requires AllAcked(es)
  {
    forall i, j | 0 <= i < j < |es| && es[i].coord != es[j].coord :: !Overlap(PeriodAt(es, i), PeriodAt(es, j))
  }

  lemma {:induction false} PeriodsOfAcked(open: Option<int>, es: seq<Entry>, c: Coord)
    ensures PeriodsFrom(open, es, c) == PeriodsFrom(open, Acked(es), c)
    decreases |es|
  {
    if es != [] {
      if es[0].serverTime.None? {
        PeriodsOfAcked(open, es[1..], c);
      } else {
        PeriodsOfAcked(if es[0].coord == c then es[0].serverTime else None, es[1..], c);
        assert Acked(es)[1..] == Acked(es[1..]);
      }
    }
  }

  ghost predicate InSome(es: seq<Entry>, c: Coord, t: int)
    requires AllAcked(es)
  {
    exists i | 0 <= i < |es| :: es[i].coord == c && Contains(PeriodAt(es, i), t)
  }

  lemma InSomeStep(es: seq<Entry>, c: Coord, t: int)
    requires AllAcked(es) && es != []
    ensures AllAcked(es[1..])
    ensures InSome(es, c, t) <==> (es[0].coord == c && Contains(PeriodAt(es, 0), t)) || InSome(es[1..], c, t)
  {
    var rest := es[1..];
    assert forall i | 0 <= i < |rest| :: rest[i] == es[i + 1];
    assert forall i | 0 <= i < |rest| :: PeriodAt(rest, i) == PeriodAt(es, i + 1);
    if InSome(es, c, t) {
      var i :| 0 <= i < |es| && es[i].coord == c && Contains(PeriodAt(es, i), t);
      assert i > 0 ==> rest[i - 1].coord == c && Contains(PeriodAt(rest, i - 1), t);
    }
    if InSome(rest, c, t) {
      var i :| 0 <= i < |rest| && rest[i].coord == c && Contains(PeriodAt(rest, i), t);
      assert es[i + 1].coord == c && Contains(PeriodAt(es, i + 1), t);
    }
  }

  /** The periods reported for c are those of the positions at c. */
  lemma {:induction false} CoversInSome(open: Option<int>, es: seq<Entry>, c: Coord, t: int)
    requires AllAcked(es)
    ensures Covers(PeriodsFrom(open, es, c), t) <==>
            (open.Some? && Contains(Period(open.value, if es == [] then None else es[0].serverTime), t)) ||
            InSome(es, c, t)
    decreases |es|
  {
    if es == [] {
      if open.Some? {
        CoversOne(Period(open.value, None), t);
      }
    } else {
      var next := if es[0].coord == c then es[0].serverTime else None;
      var closed: seq<Period> := if open.Some? then [Period(open.value, es[0].serverTime)] else [];
      InSomeStep(es, c, t);
      CoversInSome(next, es[1..], c, t);
      CoversAppend(closed, PeriodsFrom(next, es[1..], c), t);
      if open.Some? {
        CoversOne(closed[0], t);
      }
    }
  }

  lemma CoversIsInSome(es: seq<Entry>, c: Coord, t: int)
    ensures Covers(PeriodsFrom(None, es, c), t) <==> InSome(Acked(es), c, t)
  {
    PeriodsOfAcked(None, es, c);
    CoversInSome(None, Acked(es), c, t);
  }

  lemma {:induction false} AckedIsEntry(es: seq<Entry>)
    ensures forall i | 0 <= i < |Acked(es)| :: Acked(es)[i] in es
    decreases |es|
  {
    if es != [] {
      AckedIsEntry(es[1..]);
    }
  }

  lemma CoveredIsStarted(es: seq<Entry>, c: Coord, t: int)
    requires Covers(PeriodsFrom(None, es, c), t)
    ensures StartedBy(es, t)
  {
    CoversIsInSome(es, c, t);
    var i :| 0 <= i < |Acked(es)| && Acked(es)[i].coord == c && Contains(PeriodAt(Acked(es), i), t);
    AckedIsEntry(es);
    var k :| 0 <= k < |es| && es[k] == Acked(es)[i];
    assert AckedBy(es[k], t);
  }

  /** Every coordinate that is reported for a moment is the one held at that moment. */
  ghost predicate CoveredMeansHeld(initial: Coord, es: seq<Entry>) {
    forall c, t | Covers(PeriodsFrom(None, es, c), t) :: CoordAt(initial, es, t) == c
  }

  lemma HeldByBoth(initial: Coord, es: seq<Entry>, i: nat, j: nat, t: int)
    requires CoveredMeansHeld(initial, es) && i < |Acked(es)| && j < |Acked(es)|
    requires Contains(PeriodAt(Acked(es), i), t) && Contains(PeriodAt(Acked(es), j), t)
    ensures Acked(es)[i].coord == Acked(es)[j].coord
  {
    hide CoordAt, PeriodsFrom, Covers, Contains, PeriodAt, Acked;
    var a := Acked(es);
    assert InSome(a, a[i].coord, t) && InSome(a, a[j].coord, t);
    CoversIsInSome(es, a[i].coord, t);
    CoversIsInSome(es, a[j].coord, t);
    assert CoordAt(initial, es, t) == a[i].coord && CoordAt(initial, es, t) == a[j].coord;
  }

  lemma HeldMeansNoOverlap(initial: Coord, es: seq<Entry>)
    requires CoveredMeansHeld(initial, es)
    ensures NoOverlap(Acked(es))
  {
    hide CoveredMeansHeld, Contains, PeriodAt, Acked;
    var a := Acked(es);
    forall i, j | 0 <= i < j < |a| && Overlap(PeriodAt(a, i), PeriodAt(a, j))
      ensures a[i].coord == a[j].coord
    {
      HeldByBoth(initial, es, i, j, Max(PeriodAt(a, i).since, PeriodAt(a, j).since));
    }
  }

  lemma NoOverlapMeansHeld(initial: Coord, es: seq<Entry>)
    requires NoOverlap(Acked(es))
    ensures CoveredMeansHeld(initial, es)
  {
    hide CoordAt, PeriodsFrom, Covers, NoOverlap, InSome;
    forall c, t | Covers(PeriodsFrom(None, es, c), t)
      ensures CoordAt(initial, es, t) == c
    {
      CoveredIsStarted(es, c, t);
      HeldIsCovered(initial, None, es, t);
      CoversIsInSome(es, c, t);
      CoversIsInSome(es, CoordAt(initial, es, t), t);
      OnePlaceAtATime(Acked(es), c, CoordAt(initial, es, t), t);
    }
  }

  /** For arbitrary server times, what is reported is what was held if and only if no two
      acknowledged positions at different coordinates have overlapping periods. */
  lemma CoveredMeansHeldIff(initial: Coord, es: seq<Entry>)
    ensures CoveredMeansHeld(initial, es) <==> NoOverlap(Acked(es))
  {
    hide CoveredMeansHeld, NoOverlap;
    if CoveredMeansHeld(initial, es) {
      HeldMeansNoOverlap(initial, es);
    }
    if NoOverlap(Acked(es)) {
      NoOverlapMeansHeld(initial, es);
    }
  }

  lemma BothContain(p: Period, q: Period, t: int)
    requires Contains(p, t) && Contains(q, t)
    ensures Overlap(p, q) && Overlap(q, p)
  {
  }

  lemma OnePlaceAtATime(a: seq<Entry>, c: Coord, d: Coord, t: int)
    requires AllAcked(a) && NoOverlap(a) && InSome(a, c, t) && InSome(a, d, t)
    ensures c == d
  {
    var i :| 0 <= i < |a| && a[i].coord == c && Contains(PeriodAt(a, i), t);
    var j :| 0 <= j < |a| && a[j].coord == d && Contains(PeriodAt(a, j), t);
    BothContain(PeriodAt(a, i), PeriodAt(a, j), t);
  }

  /** Overlaps do come up when server times go backwards: here the chair is reported for two
      places at time 8. */
  lemma UnorderedTimesDisagree(initial: Coord, a: Coord, b: Coord, c: Coord)
    requires a != b && b != c && c != a
    ensures var es := [Entry(a, 0, Some(5)), Entry(b, 1, Some(10)), Entry(c, 2, Some(7))];
            CoordAt(initial, es, 8) == c && Covers(PeriodsFrom(None, es, a), 8) && !CoveredMeansHeld(initial, es)
  {
    var e0, e1, e2 := Entry(a, 0, Some(5)), Entry(b, 1, Some(10)), Entry(c, 2, Some(7));
    var es := [e0, e1, e2];
    AllAreAcked(es);
    CoversIsInSome(es, a, 8);
    assert es[0].coord == a && Contains(PeriodAt(es, 0), 8);
    CoordAtAppend(initial, [e0, e1], e2, 8);
    assert [e0, e1] + [e2] == es;
  }

  lemma {:induction false} AllAreAcked(es: seq<Entry>)
    requires AllAcked(es)
    ensures Acked(es) == es
    decreases |es|
  {
    if es != [] {
      assert AllAcked(es[1..]);
      AllAreAcked(es[1..]);
    }
  }

  // ---- Staleness of a reported coordinate --------------------------------------------

  datatype Verdict = Accepted | NeverThere | TooOld

  const TOLERANCE: int := 3000

  /** The nearby-chairs check of one reported coordinate. */
  method CheckCoordinate(location: ChairLocation, reported: Coord, baseTime: int) returns (v: Verdict)
    requires location.Valid()
    ensures v == Judge(location.initial, location.entries, reported, baseTime)
  {
    var current := location.Current();
    if current != reported {
      var periods := location.GetPeriodsByCoord(reported);
      if |periods| == 0 {
        return NeverThere;
      }
      for i := 0 to |periods|
        invariant forall j | 0 <= j < i :: !RecentEnough(periods[j], baseTime)
      {
        if periods[i].until.None? || baseTime - periods[i].until.value <= TOLERANCE {
          return Accepted;
        }
      }
      return TooOld;
    }
    return Accepted;
  }

  predicate RecentEnough(p: Period, baseTime: int) {
    p.until.None? || baseTime - p.until.value <= TOLERANCE
  }

  ghost function Judge(initial: Coord, es: seq<Entry>, reported: Coord, baseTime: int): Verdict {
    var periods := PeriodsFrom(None, es, reported);
    if (if es == [] then initial else es[|es| - 1].coord) == reported then Accepted
    else if periods == [] then NeverThere
    else if exists i | 0 <= i < |periods| :: RecentEnough(periods[i], baseTime) then Accepted
    else TooOld
  }

  /** The period of every acknowledged position at c, and no other, is reported for c. */
  lemma {:induction false} PeriodsReported(open: Option<int>, es: seq<Entry>, c: Coord, p: Period)
    requires AllAcked(es)
    ensures p in PeriodsFrom(open, es, c) <==>
            || (open.Some? && p == Period(open.value, if es == [] then None else es[0].serverTime))
            || (exists i | 0 <= i < |es| :: es[i].coord == c && p == PeriodAt(es, i))
    decreases |es|
  {
    if es != [] {
      var rest, next := es[1..], if es[0].coord == c then es[0].serverTime else None;
      assert forall i | 0 <= i < |rest| :: rest[i] == es[i + 1] && PeriodAt(rest, i) == PeriodAt(es, i + 1);
      PeriodsReported(next, rest, c, p);
      if i :| 0 <= i < |es| && es[i].coord == c && p == PeriodAt(es, i) {
        assert i > 0 ==> rest[i - 1].coord == c && p == PeriodAt(rest, i - 1);
      }
      if i :| 0 <= i < |rest| && rest[i].coord == c && p == PeriodAt(rest, i) {
        assert es[i + 1].coord == c && p == PeriodAt(es, i + 1);
      }
    }
  }

  /** Position i of the acknowledged ones was followed by one acknowledged more than three
      seconds before the base time. */
  predicate LeftLongAgo(acked: seq<Entry>, i: nat, baseTime: int)
    requires i < |acked|
  {
    i + 1 < |acked| && acked[i + 1].serverTime.Some? && baseTime - acked[i + 1].serverTime.value > 3000
  }

  /** What the check finds, for arbitrary server times. It is about positions, not periods: a
      coordinate that is not the current one was never there exactly when no acknowledged
      position is at it, and is too old exactly when there are such positions and the chair
      left each of them long ago. */
  lemma VerdictIff(initial: Coord, es: seq<Entry>, reported: Coord, baseTime: int)
    ensures var a, current := Acked(es), if es == [] then initial else es[|es| - 1].coord;
            var at := set i | 0 <= i < |a| && a[i].coord == reported;
            && (Judge(initial, es, reported, baseTime) == NeverThere <==> reported != current && at == {})
            && (Judge(initial, es, reported, baseTime) == TooOld <==>
                  reported != current && at != {} && forall i | i in at :: LeftLongAgo(a, i, baseTime))
            && (Judge(initial, es, reported, baseTime) == Accepted <==>
                  reported == current || exists i | i in at :: !LeftLongAgo(a, i, baseTime))
  {
    var a, periods := Acked(es), PeriodsFrom(None, es, reported);
    var at := set i | 0 <= i < |a| && a[i].coord == reported;
    PeriodsOfAcked(None, es, reported);
    forall i | i in at
      ensures PeriodAt(a, i) in periods && RecentEnough(PeriodAt(a, i), baseTime) == !LeftLongAgo(a, i, baseTime)
    {
      PeriodsReported(None, a, reported, PeriodAt(a, i));
    }
    forall p | p in periods
      ensures exists i | i in at :: p == PeriodAt(a, i)
    {
      PeriodsReported(None, a, reported, p);
    }
    if i :| 0 <= i < |periods| && RecentEnough(periods[i], baseTime) {
      assert periods[i] in periods;
    }
    assert periods != [] ==> periods[0] in periods;
  }

  /** A coordinate that the chair held at any acknowledged moment of the last three seconds,
      or later, is never flagged. */
  lemma HeldIsNeverFlagged(initial: Coord, es: seq<Entry>, baseTime: int, t: int)
    requires StartedBy(es, t) && t >= baseTime - TOLERANCE
    ensures Judge(initial, es, CoordAt(initial, es, t), baseTime) == Accepted
  {
    var c := CoordAt(initial, es, t);
    HeldIsCovered(initial, None, es, t);
    var periods := PeriodsFrom(None, es, c);
    var i :| 0 <= i < |periods| && Contains(periods[i], t);
    assert RecentEnough(periods[i], baseTime);
  }

  // ---- Travelled distance ------------------------------------------------------------

  /** Leaving out positions never lengthens a path. */
  lemma {:induction false} DistanceUntilBounded(prev: Coord, via: Coord, es: seq<Entry>, until: int)
    ensures DistanceUntil(prev, es, until) <= Dist(prev, via) + PathFrom(via, es)
    decreases |es|
  {
    if es != [] {
      DistanceUntilBounded(prev, es[0].coord, es[1..], until);
      DistanceUntilBounded(es[0].coord, es[0].coord, es[1..], until);
    }
  }

  lemma {:induction false} DistanceUntilMonotone(prev: Coord, es: seq<Entry>, t: int, u: int)
    requires t <= u
    ensures DistanceUntil(prev, es, t) <= DistanceUntil(prev, es, u)
    decreases |es|
  {
    if es != [] {
      DistanceUntilMonotone(if es[0].serverTime.None? then prev else es[0].coord, es[1..], t, u);
    }
  }

  lemma {:induction false} DistanceUntilAll(prev: Coord, es: seq<Entry>, t: int)
    requires forall i | 0 <= i < |es| :: AckedBy(es[i], t)
    ensures DistanceUntil(prev, es, t) == PathFrom(prev, es)
    decreases |es|
  {
    if es != [] {
      assert forall i | 0 <= i < |es[1..]| :: es[1..][i] == es[i + 1];
      DistanceUntilAll(es[0].coord, es[1..], t);
    }
  }

  /** The distance until t is the length of the path over the acknowledged positions before the
      first one acknowledged after t; positions without an acknowledgement are left out. */
  lemma {:induction false} DistanceUntilIs(prev: Coord, es: seq<Entry>, t: int, k: nat)
    requires k <= |Acked(es)| && forall i | 0 <= i < k :: Acked(es)[i].serverTime.value <= t
    requires k < |Acked(es)| ==> Acked(es)[k].serverTime.value > t
    ensures DistanceUntil(prev, es, t) == PathFrom(prev, Acked(es)[..k])
    decreases |es|
  {
    if es == [] {
    } else if es[0].serverTime.None? {
      DistanceUntilIs(prev, es[1..], t, k);
    } else if k > 0 {
      var rest := Acked(es[1..]);
      assert forall i | 0 <= i < |rest| :: rest[i] == Acked(es)[i + 1];
      assert Acked(es)[..k][1..] == rest[..k - 1];
      DistanceUntilIs(es[0].coord, es[1..], t, k - 1);
    }
  }

  /** The distance until t grows with t, never exceeds the total, and equals it once every
      position is acknowledged by t. */
  lemma DistanceUntilAgainstTotal(location: ChairLocation, t: int, u: int)
    requires location.Valid() && location.Travelled() && t <= u
    ensures DistanceUntil(location.initial, location.entries, t) <=
            DistanceUntil(location.initial, location.entries, u) <= location.totalTravelDistance
    ensures (forall i | 0 <= i < |location.entries| :: AckedBy(location.entries[i], u)) ==>
              DistanceUntil(location.initial, location.entries, u) == location.totalTravelDistance
  {
    DistanceUntilMonotone(location.initial, location.entries, t, u);
    DistanceUntilBounded(location.initial, location.initial, location.entries, u);
    if forall i | 0 <= i < |location.entries| :: AckedBy(location.entries[i], u) {
      DistanceUntilAll(location.initial, location.entries, u);
    }
  }
}
