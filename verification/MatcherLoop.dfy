/** The matcher as it runs: no transaction around its statements, so that any other handler may
    run between any two of them. */
module MatcherLoop {
  import opened Wrappers
  import opened WebApp
  import opened Matching

  /** The first ride without a chair. */
  ghost predicate IsOldestWaiting(rides: seq<Ride>, ride: RideId) {
    ride < |rides| && rides[ride].chair.None? && forall i | 0 <= i < ride :: rides[i].chair.Some?
  }

  /** Some status of a ride of the chair has not been sent to it yet. */
  ghost predicate Busy(rides: seq<Ride>, chair: ChairId) {
    exists i | 0 <= i < |rides| && rides[i].chair == Some(chair) :: SentCount(rides[i].log) != 6
  }

  /** The outcome of a round: `first` are the rides as they were when the ride was chosen, and
      `gates` as they were each time a chair was looked at. The ride is the oldest one waiting;
      the chair is the first one drawn that was found free; there is no match if and only if no
      ride waits, or no chair could be drawn before a free one, or ten were found busy. */
  ghost predicate Outcome(first: seq<Ride>, gates: seq<seq<Ride>>, draws: seq<Option<ChairId>>,
                          matched: Option<(RideId, ChairId)>)
  {
    && |gates| <= 10 <= |draws|
    && (forall k | 0 <= k < |gates| :: draws[k].Some? && (Busy(gates[k], draws[k].value) || k == |gates| - 1))
    && (matched.Some? ==>
          && IsOldestWaiting(first, matched.value.0) && |gates| > 0
          && draws[|gates| - 1] == Some(matched.value.1) && !Busy(gates[|gates| - 1], matched.value.1))
    && (matched.None? ==>
          || (forall i | 0 <= i < |first| :: first[i].chair.Some?)
          || ((|gates| == 10 || draws[|gates|].None?) &&
              forall k | 0 <= k < |gates| :: Busy(gates[k], draws[k].value)))
  }

  /** A chair is drawn that is free, and so was every draw before it successful. */
  ghost predicate FreeDraw(rides: seq<Ride>, draws: seq<Option<ChairId>>, k: nat) {
    && k < 10 <= |draws| && (forall j | 0 <= j <= k :: draws[j].Some?)
    && !Busy(rides, draws[k].value)
  }

  /** When nothing else happens during a round, a ride is matched if and only if one waits and a
      free chair is drawn; it is the oldest ride and the first free chair. */
  lemma QuietOutcome(rides: seq<Ride>, gates: seq<seq<Ride>>, draws: seq<Option<ChairId>>,
                     matched: Option<(RideId, ChairId)>)
    requires Outcome(rides, gates, draws, matched) && (forall k | 0 <= k < |gates| :: gates[k] == rides)
    ensures matched.Some? <==>
            (exists i | 0 <= i < |rides| :: rides[i].chair.None?) && (exists k: nat :: FreeDraw(rides, draws, k))
    ensures matched.Some? ==>
              && IsOldestWaiting(rides, matched.value.0)
              && exists k: nat :: FreeDraw(rides, draws, k) && draws[k] == Some(matched.value.1) &&
                                  forall j: nat | j < k :: !FreeDraw(rides, draws, j)
  {
    hide Busy, IsOldestWaiting;
    if matched.Some? {
      var k: nat := |gates| - 1;
      assert FreeDraw(rides, draws, k);
      forall j: nat | j < k
        ensures !FreeDraw(rides, draws, j)
      {
        assert Busy(gates[j], draws[j].value);
      }
      OldestWaits(rides, matched.value.0);
    }
  }

  lemma OldestWaits(rides: seq<Ride>, ride: RideId)
    requires IsOldestWaiting(rides, ride)
    ensures ride < |rides| && rides[ride].chair.None?
  {
  }

  lemma GateReads(rides: seq<Ride>, chair: ChairId)
    ensures ChairFree(rides, chair) == !Busy(rides, chair)
  {
  }

  class Database {
    var t: Table
    ghost var progress: Matcher
    ghost var served: map<ChairId, seq<RideId>>
    ghost var heard: map<ChairId, seq<Event>>

    ghost function View(): State
      reads this
    {
      State(t, progress, served, heard)
    }

    constructor ()
      ensures FullInv(View()) && View() == Start()
    {
      t, progress, served, heard := Table([], 0), Idle, map[], map[];
      new;
      StartFits();
    }

    ghost method Note(s: State)
      modifies `progress, `served, `heard
      ensures View() == s.(t := t)
    {
      progress, served, heard := s.matcher, s.served, s.heard;
    }

    /** Any number of requests of users and chairs. */
    method OtherHandlers()
      requires FullInv(View())
      modifies this
      ensures FullInv(View()) && progress == old(progress)
    {
      hide FullInv, Allowed;
      var n: nat := *;
      while n > 0
        invariant FullInv(View()) && progress == old(progress)
      {
        var q: Request := *;
        var allowed: bool := *;
        if allowed && Allowed(t, q) {
          ghost var s := Matching.Apply(View(), Handle(q));
          StepKeepsFull(View(), Handle(q));
          t := WebApp.Apply(t, q);
          Note(s);
        }
        n := n - 1;
      }
    }

    ghost method Advance(step: Step)
      requires FullInv(View()) && Enabled(View(), step) && !step.Handle? && !step.Update?
      modifies this`progress
      ensures FullInv(View()) && View() == Matching.Apply(old(View()), step)
    {
      StepKeepsFull(View(), step);
      progress := Matching.Apply(View(), step).matcher;
    }

    /** `internalGetMatching`; `draws` are the randomly chosen active chairs. What it decides
        follows from what it has read. When it assigns a ride, the ride has no chair at that
        moment and the chair has heard all of its earlier rides' statuses, whatever has happened
        since these facts were read. */
    method InternalGetMatching(draws: seq<Option<ChairId>>)
      returns (matched: Option<(RideId, ChairId)>, ghost first: seq<Ride>, ghost gates: seq<seq<Ride>>)
      requires FullInv(View()) && progress == Idle && |draws| == TRIES
      modifies this
      ensures FullInv(View()) && progress == Idle
      ensures Outcome(first, gates, draws, matched)
      ensures matched.Some? ==>
                var (ride, chair) := matched.value;
                && ride < |t.rides| && t.rides[ride].chair == Some(chair) && |t.rides[ride].log| == 1
                && (forall i | 0 <= i < |t.rides| && i != ride && t.rides[i].chair == Some(chair) ::
                      SentCount(t.rides[i].log) == 6)
    {
      hide FullInv, ChairFree, SentCount, Busy;
      OtherHandlers();
      first, gates := t.rides, [];
      var found := FirstUnassigned(t.rides);
      Advance(Pick);
      if found.None? {
        matched := None;
        return;
      }
      var ride, chair, empty, i := found.value, 0, false, 0;
      while i < TRIES && !empty
        invariant 0 <= i <= TRIES && FullInv(View()) && |gates| == i
        invariant forall k | 0 <= k < i :: draws[k].Some?
        invariant forall k | 0 <= k < i - 1 || (k == i - 1 && !empty) :: 0 <= k ==> Busy(gates[k], draws[k].value)
        invariant empty ==> i > 0 && progress == Found(ride, chair)
        invariant empty ==> draws[i - 1] == Some(chair) && !Busy(gates[i - 1], chair)
        invariant !empty && i < TRIES ==> progress == Trying(ride, i)
        invariant !empty && i == TRIES ==> progress == Idle
      {
        OtherHandlers();
        if draws[i].None? {
          Advance(NoChair);
          matched := None;
          return;
        }
        chair := draws[i].value;
        Advance(Draw(chair));
        OtherHandlers();
        empty := ChairFree(t.rides, chair);
        GateReads(t.rides, chair);
        gates := gates + [t.rides];
        Advance(Gate);
        i := i + 1;
      }
      if !empty {
        matched := None;
        return;
      }
      OtherHandlers();
      Assign(ride, chair);
      matched := Some((ride, chair));
    }

    method Assign(ride: RideId, chair: ChairId)
      requires FullInv(View()) && progress == Found(ride, chair)
      modifies this
      ensures FullInv(View()) && progress == Idle
      ensures ride < |t.rides| && t.rides[ride].chair == Some(chair) && |t.rides[ride].log| == 1
      ensures forall i | 0 <= i < |t.rides| && i != ride && t.rides[i].chair == Some(chair) ::
                SentCount(t.rides[i].log) == 6
    {
      ghost var s := Matching.Apply(View(), Update);
      StepKeepsFull(View(), Update);
      GateMeansClosed(t, chair);
      UnassignedIsNew(View(), ride);
      t := WebApp.Apply(t, WebApp.Assign(ride, chair));
      Note(s);
    }
  }
}
