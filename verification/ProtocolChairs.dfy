/** The chair's steps and the matcher's keep the protocol's invariant. */
module ProtocolChairs {
  import opened Grid
  import opened Wrappers
  import opened RideStatus
  import opened Deliveries
  import opened Protocol
  import opened ProtocolFrames
  import A = Agents
  import M = Matching
  import W = WebApp

  // ---- The notifications of a chair --------------------------------------------------

  lemma {:induction false} FullAt(rs: seq<RideId>, p: nat)
    ensures |M.Full(rs)| == 6 * |rs|
    ensures p < 6 * |rs| ==> M.Full(rs)[p] == M.Event(rs[p / 6], p % 6)
    decreases |rs|
  {
    if rs != [] {
      FullAt(rs[..|rs| - 1], p);
      FullAt(rs[..|rs| - 1], 0);
    }
  }

  /** The p-th notification of a history. */
  lemma HistoryAt(served: seq<RideId>, n: nat, p: nat)
    requires served != [] && n <= 6
    requires p < |M.Full(served[..|served| - 1]) + M.First(served[|served| - 1], n)|
    ensures p / 6 < |served|
    ensures (M.Full(served[..|served| - 1]) + M.First(served[|served| - 1], n))[p] == M.Event(served[p / 6], p % 6)
    ensures p / 6 == |served| - 1 ==> p % 6 < n
  {
    FullAt(served[..|served| - 1], p);
  }

  /** The order of notifications: the next row of the ride or, after its last row, the first
      row of a ride. */
  predicate Next(a: M.Event, b: M.Event) {
    if a.row < 5 then b == M.Event(a.ride, a.row + 1) else a.row == 5 && b.row == 0
  }

  /** The notification at the head of the queue: it repeats the last one handled, or it is the
      next one, and new. */
  ghost predicate Heads(known: seq<M.Event>, known': seq<M.Event>, e: M.Event) {
    || (known' == known && known != [] && known[|known| - 1] == e)
    || (known' == known + [e] && e !in known &&
        if known == [] then e.row == 0 else Next(known[|known| - 1], e))
  }

  function History(served: seq<RideId>, n: nat): seq<M.Event>
    requires served != []
  {
    M.Full(served[..|served| - 1]) + M.First(served[|served| - 1], n)
  }

  /** No notification comes twice in a history. */
  lemma HistoryDistinct(served: seq<RideId>, n: nat, i: nat, p: nat)
    requires served != [] && n <= 6 && i < p < |History(served, n)|
    requires forall a, b | 0 <= a < b < |served| :: served[a] != served[b]
    ensures History(served, n)[i] != History(served, n)[p]
  {
    HistoryAt(served, n, i);
    HistoryAt(served, n, p);
    Positions(i, p);
  }

  lemma HistoryNext(served: seq<RideId>, n: nat, p: nat)
    requires served != [] && n <= 6 && p < |History(served, n)|
    ensures p == 0 ==> History(served, n)[p].row == 0
    ensures p > 0 ==> Next(History(served, n)[p - 1], History(served, n)[p])
  {
    HistoryAt(served, n, p);
    if p > 0 {
      HistoryAt(served, n, p - 1);
      Successor(p);
    }
  }

  lemma HeadOfQueue(served: seq<RideId>, n: nat, heard: seq<M.Event>, h: nat)
    requires served != [] && n <= 6 && h < |heard| && Dedup(heard) == History(served, n)
    requires forall a, b | 0 <= a < b < |served| :: served[a] != served[b]
    ensures Heads(Dedup(heard[..h]), Dedup(heard[..h + 1]), heard[h])
    ensures heard[h] in History(served, n)
  {
    hide History, Dedup;
    var known, known', e := Dedup(heard[..h]), Dedup(heard[..h + 1]), heard[h];
    DedupStep(heard, h);
    var p := |known'| - 1;
    assert e == History(served, n)[p];
    if |known'| == |known| {
      assert known' == known;
    } else {
      assert known' == known + [e];
      HistoryNext(served, n, p);
      forall i | 0 <= i < p
        ensures known[i] != e
      {
        HistoryDistinct(served, n, i, p);
        assert known[i] == known'[i];
      }
      assert p > 0 ==> known[p - 1] == known'[p - 1];
    }
  }

  lemma InHistory(served: seq<RideId>, n: nat, e: M.Event)
    requires served != [] && n <= 6 && e in History(served, n)
    ensures exists j | 0 <= j < |served| :: e.ride == served[j] && e.row < if j < |served| - 1 then 6 else n
  {
    var p :| 0 <= p < |History(served, n)| && History(served, n)[p] == e;
    HistoryAt(served, n, p);
    assert e.ride == served[p / 6];
  }

  lemma Positions(i: nat, p: nat)
    requires i < p
    ensures i / 6 <= p / 6 && (i / 6 < p / 6 || i % 6 != p % 6)
  {
  }

  lemma Successor(p: nat)
    requires p > 0
    ensures if (p - 1) % 6 < 5 then p % 6 == (p - 1) % 6 + 1 && p / 6 == (p - 1) / 6 else p % 6 == 0 && (p - 1) % 6 == 5
  {
  }

  lemma ChairHears(s: State, c: ChairId)
    requires Inv(s) && c < |s.chairs| && s.chairs[c].handled < |M.Heard(s.m, c)|
    ensures var heard, h := M.Heard(s.m, c), s.chairs[c].handled;
            var e := heard[h];
            && Heads(Dedup(heard[..h]), Dedup(heard[..h + 1]), e)
            && e.row < 6 && e.ride < |Rides(s)| && Rides(s)[e.ride].chair == Some(c)
            && e.row < |Rides(s)[e.ride].log| && Rides(s)[e.ride].log[e.row].status == SIX[e.row]
  {
    var served, heard, h := M.Served(s.m, c), M.Heard(s.m, c), s.chairs[c].handled;
    assert M.ChairFits(Rides(s), served, heard, c);
    assert served != [];
    var last := served[|served| - 1];
    RideAt(s, last);
    assert Rides(s)[last].Seen(W.Chair) == Rides(s)[last].chairSeen;
    HeadOfQueue(served, |Dedup(Rides(s)[last].chairSeen)|, heard, h);
    InHistory(served, |Dedup(Rides(s)[last].chairSeen)|, heard[h]);
    var j :| 0 <= j < |served| && heard[h].ride == served[j] &&
             heard[h].row < if j < |served| - 1 then 6 else |Dedup(Rides(s)[last].chairSeen)|;
    assert served[j] in served;
    RideAt(s, served[j]);
    assert j < |served| - 1 ==> M.Closed(Rides(s)[served[j]].log);
  }

  // ---- Handling a notification -------------------------------------------------------

  /** MATCHING: the chair has no assignment, or has this one. */
  lemma HearsMatching(rides: seq<W.Ride>, reqs: seq<Req>, k: ChairRec, heard: seq<M.Event>, c: ChairId, e: M.Event)
    requires |reqs| == |rides| && ChairFits(rides, reqs, k, heard, c) && k.handled < |heard| && heard[k.handled] == e
    requires Heads(Dedup(heard[..k.handled]), Dedup(heard[..k.handled + 1]), e)
    requires e.row == 0 && e.ride < |rides| && rides[e.ride].chair == Some(c)
    ensures k.mind.matching.Some? ==> k.mind.matching.value.ride == e.ride
    ensures ChairFits(rides, reqs,
                      k.(handled := k.handled + 1, mind := k.mind.(matching := Some(NoticeOf(rides, e.ride)))), heard, c)
  {
    var known := Dedup(heard[..k.handled]);
    if known != [] && known[|known| - 1] == e {
    } else {
      assert k.mind == A.Mind(None, None);
      assert TakenFits(rides[e.ride], reqs[e.ride], e.ride, k, known);
    }
  }

  /** ENROUTE to ARRIVED: it is about the chair's assignment. */
  lemma HearsProgress(rides: seq<W.Ride>, reqs: seq<Req>, k: ChairRec, heard: seq<M.Event>, c: ChairId, e: M.Event)
    requires |reqs| == |rides| && ChairFits(rides, reqs, k, heard, c) && k.handled < |heard| && heard[k.handled] == e
    requires Heads(Dedup(heard[..k.handled]), Dedup(heard[..k.handled + 1]), e)
    requires 1 <= e.row <= 4 && e.ride < |rides| && rides[e.ride].chair == Some(c) && e.row < |rides[e.ride].log|
    ensures A.ChairDataOk(k.mind, NoticeOf(rides, e.ride))
    ensures ChairFits(rides, reqs, k.(handled := k.handled + 1), heard, c)
  {
  }

  /** COMPLETED again: the ride is over and in the history. */
  lemma HearsCompletedAgain(rides: seq<W.Ride>, reqs: seq<Req>, k: ChairRec, heard: seq<M.Event>, c: ChairId, e: M.Event)
    requires |reqs| == |rides| && ChairFits(rides, reqs, k, heard, c) && k.handled < |heard| && heard[k.handled] == e
    requires Heads(Dedup(heard[..k.handled]), Dedup(heard[..k.handled + 1]), e) && k.mind.request.None?
    requires e.row == 5 && e.ride < |rides| && rides[e.ride].chair == Some(c) && e.row < |rides[e.ride].log|
    ensures e.ride in k.history && reqs[e.ride].st.desired == Completed && reqs[e.ride].st.chair == Completed
    ensures ChairFits(rides, reqs, k.(handled := k.handled + 1), heard, c)
  {
    assert TakenFits(rides[e.ride], reqs[e.ride], e.ride, k, Handled(k, heard));
  }

  /** COMPLETED for the first time: it is the current ride. */
  lemma HearsCompleted(rides: seq<W.Ride>, reqs: seq<Req>, k: ChairRec, heard: seq<M.Event>, c: ChairId, e: M.Event)
    requires |reqs| == |rides| && ChairFits(rides, reqs, k, heard, c) && k.handled < |heard| && heard[k.handled] == e
    requires Heads(Dedup(heard[..k.handled]), Dedup(heard[..k.handled + 1]), e) && k.mind.request.Some?
    requires e.row == 5 && e.ride < |rides| && rides[e.ride].chair == Some(c) && |rides[e.ride].log| == 6
    requires PhaseFits(6, reqs[e.ride]) && !reqs[e.ride].evaluating && reqs[e.ride].call == NoCall
    ensures k.mind.request == Some(e.ride) && reqs[e.ride].st.desired == Completed
    ensures A.ChairDataOk(k.mind, NoticeOf(rides, e.ride))
    ensures ChairFits(rides, reqs[e.ride := reqs[e.ride].(st := reqs[e.ride].st.(chair := Completed))],
                      k.(handled := k.handled + 1, mind := A.Mind(None, None)), heard, c)
  {
    var k' := k.(handled := k.handled + 1, mind := A.Mind(None, None));
    var known, known' := Handled(k, heard), Handled(k', heard);
    assert known' == known + [e];
    assert k.mind.request == Some(e.ride);
    var q' := reqs[e.ride].(st := reqs[e.ride].st.(chair := Completed));
    forall i | 0 <= i < |rides| && rides[i].chair == Some(c)
      ensures TakenFits(rides[i], reqs[e.ride := q'][i], i, k', known')
    {
      assert TakenFits(rides[i], reqs[i], i, k, known);
    }
  }

  lemma ChairHandleKeeps(s: State, c: ChairId)
    requires Inv(s) && Enabled(s, ChairHandle(c))
    ensures Inv(Apply(s, ChairHandle(c)))
  {
    hide Inv, ChairFits, RideFits, W.RideOk, M.SixPrefix, M.FullInv, Heads, Dedup, Apply, A.ChairReact;
    ChairHears(s, c);
    ChairOf(s, c);
    var e := M.Heard(s.m, c)[s.chairs[c].handled];
    assert NextEvent(s, c) == Some(e);
    if e.row == 0 {
      HandlesMatching(s, c, e);
    } else if e.row <= 4 {
      HandlesProgress(s, c, e);
    } else {
      HandlesCompleted(s, c, e);
    }
  }

  /** The situation in which a chair handles e. */
  ghost predicate Handling(s: State, c: ChairId, e: M.Event) {
    && Inv(s) && Enabled(s, ChairHandle(c)) && NextEvent(s, c) == Some(e)
    && |s.reqs| == |Rides(s)| && ChairFits(Rides(s), s.reqs, s.chairs[c], M.Heard(s.m, c), c)
    && s.chairs[c].handled < |M.Heard(s.m, c)| && M.Heard(s.m, c)[s.chairs[c].handled] == e
    && Heads(Dedup(M.Heard(s.m, c)[..s.chairs[c].handled]), Dedup(M.Heard(s.m, c)[..s.chairs[c].handled + 1]), e)
    && e.row < 6 && e.ride < |Rides(s)| && Rides(s)[e.ride].chair == Some(c)
    && e.row < |Rides(s)[e.ride].log| && Rides(s)[e.ride].log[e.row].status == SIX[e.row] && !s.fault
  }

  lemma HandlesMatching(s: State, c: ChairId, e: M.Event)
    requires c < |s.chairs| && Handling(s, c, e) && e.row == 0
    ensures Inv(Apply(s, ChairHandle(c)))
  {
    hide Inv, ChairFits, Heads, Dedup;
    HearsMatching(Rides(s), s.reqs, s.chairs[c], M.Heard(s.m, c), c, e);
    var k := s.chairs[c];
    ChairOnly(s, c, k.(handled := k.handled + 1, mind := k.mind.(matching := Some(NoticeOf(Rides(s), e.ride)))));
  }

  lemma HandlesProgress(s: State, c: ChairId, e: M.Event)
    requires c < |s.chairs| && Handling(s, c, e) && 1 <= e.row <= 4
    ensures Inv(Apply(s, ChairHandle(c)))
  {
    hide Inv, ChairFits, Heads, Dedup, A.ChairDataOk;
    HearsProgress(Rides(s), s.reqs, s.chairs[c], M.Heard(s.m, c), c, e);
    var k := s.chairs[c];
    ChairOnly(s, c, k.(handled := k.handled + 1));
  }

  lemma HandlesCompleted(s: State, c: ChairId, e: M.Event)
    requires c < |s.chairs| && Handling(s, c, e) && e.row == 5
    ensures Inv(Apply(s, ChairHandle(c)))
  {
    hide Handling, Inv, Apply;
    var k := s.chairs[c];
    if k.mind.request.None? {
      RepeatsCompleted(s, c, e);
    } else {
      FirstCompleted(s, c, e);
    }
  }

  lemma RepeatsCompleted(s: State, c: ChairId, e: M.Event)
    requires c < |s.chairs| && s.chairs[c].mind.request.None? && Handling(s, c, e) && e.row == 5
    ensures Inv(Apply(s, ChairHandle(c)))
  {
    hide Inv, ChairFits, Heads, Dedup;
    HearsCompletedAgain(Rides(s), s.reqs, s.chairs[c], M.Heard(s.m, c), c, e);
    var k, q := s.chairs[c], s.reqs[e.ride];
    assert q.(st := q.st.(chair := Completed)) == q && s.reqs[e.ride := q] == s.reqs;
    ChairOnly(s, c, k.(handled := k.handled + 1));
  }

  lemma CompletedRide(r: W.Ride, q: Req, time: int)
    requires RideFits(r, q, time) && q.st.desired == Completed
    ensures var q' := q.(st := q.st.(chair := Completed)); RideFits(r, q', time) && SameForUser(r, q, r, q')
  {
  }

  lemma FirstCompleted(s: State, c: ChairId, e: M.Event)
    requires c < |s.chairs| && s.chairs[c].mind.request.Some? && Handling(s, c, e) && e.row == 5
    ensures Inv(Apply(s, ChairHandle(c)))
  {
    hide Inv, ChairFits, RideFits, SameForUser, Heads, Dedup, W.RideOk, M.FullInv;
    CurrentOf(s, c, e);
    RideAt(s, e.ride);
    FullOf(s);
    HearsCompleted(Rides(s), s.reqs, s.chairs[c], M.Heard(s.m, c), c, e);
    var k, r, q := s.chairs[c], Rides(s)[e.ride], s.reqs[e.ride];
    CompletedRide(r, q, s.time);
    assert Rides(s)[e.ride := r] == Rides(s);
    ChairSide(s, Apply(s, ChairHandle(c)), e.ride, r, q.(st := q.st.(chair := Completed)), c,
              k.(handled := k.handled + 1, mind := A.Mind(None, None)));
  }

  lemma CurrentOf(s: State, c: ChairId, e: M.Event)
    requires c < |s.chairs| && s.chairs[c].mind.request.Some? && Handling(s, c, e) && e.row == 5
    ensures s.chairs[c].mind.request == Some(e.ride)
    ensures e.ride < |Rides(s)| == |s.reqs| && |Rides(s)[e.ride].log| == 6 && PhaseFits(6, s.reqs[e.ride])
  {
    hide Inv;
    RideAt(s, e.ride);
  }

  // ---- The current ride of a chair ---------------------------------------------------

  lemma ChairCurrent(s: State, c: ChairId, i: RideId)
    requires Inv(s) && c < |s.chairs| && s.chairs[c].mind.request == Some(i)
    ensures i < |Rides(s)| == |s.reqs| && Rides(s)[i].chair == Some(c) && s.reqs[i].registered
    ensures s.reqs[i].st.chair != Completed && PositionFits(Rides(s)[i], s.reqs[i], s.chairs[c])
    ensures s.reqs[i].st.desired != Matching ==> i in s.chairs[c].history
    ensures !s.fault
  {
    hide Inv;
    ChairOf(s, c);
  }

  ghost predicate SameRide(r: W.Ride, r': W.Ride) {
    r'.chair == r.chair && r'.user == r.user && r'.pickup == r.pickup && r'.dest == r.dest
  }

  /** The current ride and the chair change together. */
  lemma OwnCurrent(rides: seq<W.Ride>, reqs: seq<Req>, k: ChairRec, heard: seq<M.Event>, c: ChairId, i: RideId,
                   r': W.Ride, q': Req, k': ChairRec)
    requires |reqs| == |rides| && ChairFits(rides, reqs, k, heard, c) && k.mind.request == Some(i)
    requires i < |rides| && SameRide(rides[i], r') && q'.registered && q'.st.chair != Completed
    requires k'.mind == k.mind && k'.handled == k.handled && (forall h | h in k.history :: h in k'.history)
    requires (q'.st.desired != Matching ==> i in k'.history) && PositionFits(r', q', k')
    ensures ChairFits(rides[i := r'], reqs[i := q'], k', heard, c)
  {
    hide PositionFits;
    var rides', reqs' := rides[i := r'], reqs[i := q'];
    forall j | 0 <= j < |rides'| && rides'[j].chair == Some(c)
      ensures TakenFits(rides'[j], reqs'[j], j, k', Handled(k', heard))
    {
      assert TakenFits(rides[j], reqs[j], j, k, Handled(k, heard));
    }
  }

  lemma CurrentSide(s: State, s': State, c: ChairId, i: RideId, r': W.Ride, q': Req, k': ChairRec)
    requires Inv(s) && c < |s.chairs| && s.chairs[c].mind.request == Some(i) && i < |Rides(s)| == |s.reqs|
    requires M.FullInv(s'.m) && Rides(s') == Rides(s)[i := r'] && s'.reqs == s.reqs[i := q']
    requires s'.users == s.users && s'.chairs == s.chairs[c := k'] && s'.time == s.time && !s'.fault
    requires forall d :: M.Heard(s'.m, d) == M.Heard(s.m, d)
    requires RideFits(r', q', s.time) && SameForUser(Rides(s)[i], s.reqs[i], r', q') && SameRide(Rides(s)[i], r')
    requires q'.registered && q'.st.chair != Completed
    requires k'.mind == s.chairs[c].mind && k'.handled == s.chairs[c].handled
    requires forall h | h in s.chairs[c].history :: h in k'.history
    requires (q'.st.desired != Matching ==> i in k'.history) && PositionFits(r', q', k')
    ensures Inv(s')
  {
    hide Inv, RideFits, ChairFits, PositionFits, SameForUser, M.FullInv;
    ChairOf(s, c);
    ChairCurrent(s, c, i);
    OwnCurrent(Rides(s), s.reqs, s.chairs[c], M.Heard(s.m, c), c, i, r', q', k');
    ChairSide(s, s', i, r', q', c, k');
  }

  lemma TakeUpKeeps(s: State, c: ChairId)
    requires Inv(s) && Enabled(s, TakeUp(c))
    ensures Inv(Apply(s, TakeUp(c)))
  {
    hide Inv, RideFits, ChairFits, W.RideOk, M.SixPrefix, M.FullInv;
    var k := s.chairs[c];
    var i := k.mind.matching.value.ride;
    ChairOf(s, c);
    RideAt(s, i);
    TakenFitsUp(Rides(s), s.reqs, k, M.Heard(s.m, c), c, i, s.time);
    ChairOnly(s, c, k.(mind := k.mind.(request := Some(i))));
  }

  lemma TakenFitsUp(rides: seq<W.Ride>, reqs: seq<Req>, k: ChairRec, heard: seq<M.Event>, c: ChairId, i: RideId, time: int)
    requires |reqs| == |rides| && ChairFits(rides, reqs, k, heard, c) && k.mind.request.None? && k.sync == Clean
    requires k.mind.matching.Some? && k.mind.matching.value.ride == i && i < |rides| && reqs[i].registered
    requires RideFits(rides[i], reqs[i], time)
    ensures k.mind.matching == Some(NoticeOf(rides, i))
    ensures ChairFits(rides, reqs, k.(mind := k.mind.(request := Some(i))), heard, c)
  {
    var known := Handled(k, heard);
    assert known != [] && known[|known| - 1] == M.Event(i, 0);
  }

  // ---- Client calls ------------------------------------------------------------------

  /** A change of the current ride with its chair fits. */
  ghost predicate Fitting(r: W.Ride, q: Req, k: ChairRec, r': W.Ride, q': Req, k': ChairRec, time: int) {
    && RideFits(r', q', time) && SameForUser(r, q, r', q') && SameRide(r, r') && PositionFits(r', q', k')
    && q'.registered && q'.st.chair != Completed
  }

  lemma AcceptFits(r: W.Ride, q: Req, k: ChairRec, time: int)
    requires RideFits(r, q, time) && PositionFits(r, q, k) && r.chair.Some? && q.registered
    requires k.sync == Clean && q.st.chair == Matching && q.call == NoCall
    ensures |r.log| == 1
    ensures Fitting(r, q, k, W.Logged(r, Enroute), q.(call := Accepting), k, time)
  {
  }

  lemma AcceptDoneFits(r: W.Ride, q: Req, k: ChairRec, i: RideId, time: int)
    requires RideFits(r, q, time) && PositionFits(r, q, k) && q.registered && q.call == Accepting
    ensures Fitting(r, q, k, r, q.(call := NoCall, matchedAt := time, st := q.st.(desired := Enroute, chair := Enroute)),
                    k.(history := k.history + [i]), time)
  {
  }

  lemma MoveFits(r: W.Ride, q: Req, k: ChairRec, to: Coord, time: int)
    requires RideFits(r, q, time) && PositionFits(r, q, k) && q.registered
    requires k.sync == Clean && q.call == NoCall && q.st.chair in {Enroute, Carrying}
    ensures q.st.desired != Matching
    ensures var k' := k.(loc := to, sync := Moved);
            if q.st.chair == Enroute && to == r.pickup then
              Fitting(r, q, k, r, q.(call := Posting, dispatchedAt := time, st := q.st.(desired := Pickup, chair := Pickup)),
                      k', time)
            else if q.st.chair == Carrying && to == r.dest then
              Fitting(r, q, k, r, q.(call := Posting, arrivedAt := time, st := q.st.(desired := Arrived, chair := Arrived)),
                      k', time)
            else Fitting(r, q, k, r, q, k', time)
  {
  }

  lemma PostFits(r: W.Ride, q: Req, k: ChairRec, time: int)
    requires RideFits(r, q, time) && PositionFits(r, q, k) && q.registered && q.st.chair != Completed
    requires k.sync != Clean && 1 <= |r.log| <= 6 && W.Latest(r.log) == SIX[|r.log| - 1]
    ensures Fitting(r, q, k, W.CoordinatePosted(r, k.loc), q, k.(sync := Posted), time)
  {
  }

  lemma PostDoneFits(r: W.Ride, q: Req, k: ChairRec, time: int)
    requires RideFits(r, q, time) && PositionFits(r, q, k) && q.registered && q.st.chair != Completed && k.sync == Posted
    ensures Fitting(r, q, k, r, q.(call := NoCall), k.(sync := Clean), time)
  {
  }

  lemma DepartFits(r: W.Ride, q: Req, k: ChairRec, time: int)
    requires RideFits(r, q, time) && PositionFits(r, q, k) && q.registered && r.chair.Some?
    requires k.sync == Clean && q.st.chair == Pickup && q.st.user == Pickup && q.call == NoCall
    ensures |r.log| == 3
    ensures |Dedup(r.appSeen)| <= |r.log| ==>
              Fitting(r, q, k, W.Logged(r, Carrying), q.(call := Departing), k, time)
  {
  }

  lemma DepartDoneFits(r: W.Ride, q: Req, k: ChairRec, time: int)
    requires RideFits(r, q, time) && PositionFits(r, q, k) && q.registered && q.call == Departing
    ensures Fitting(r, q, k, r, q.(call := NoCall, pickedUpAt := time, st := q.st.(desired := Carrying, chair := Carrying)),
                    k, time)
  {
  }

  lemma AcceptKeeps(s: State, c: ChairId)
    requires Inv(s) && Enabled(s, Accept(c))
    ensures Inv(Apply(s, Accept(c)))
  {
    hide Inv, RideFits, PositionFits, W.RideOk, M.SixPrefix, M.FullInv;
    var k, i := s.chairs[c], s.chairs[c].mind.request.value;
    ChairCurrent(s, c, i);
    RideAt(s, i);
    var r, q, p := Rides(s)[i], s.reqs[i], W.PostStatus(i, c, W.PostEnroute);
    AcceptFits(r, q, k, s.time);
    ServerKeepsFull(s, p);
    ServerEffect(s, p, i);
    assert s.chairs[c := k] == s.chairs;
    CurrentSide(s, Apply(s, Accept(c)), c, i, W.Logged(r, Enroute), q.(call := Accepting), k);
  }

  lemma DepartKeeps(s: State, c: ChairId)
    requires Inv(s) && Enabled(s, Depart(c))
    ensures Inv(Apply(s, Depart(c)))
  {
    hide Inv, RideFits, PositionFits, W.RideOk, M.SixPrefix, M.FullInv;
    var k, i := s.chairs[c], s.chairs[c].mind.request.value;
    ChairCurrent(s, c, i);
    RideAt(s, i);
    var r, q, p := Rides(s)[i], s.reqs[i], W.PostStatus(i, c, W.PostCarrying);
    DepartFits(r, q, k, s.time);
    SeenBounds(r);
    ServerKeepsFull(s, p);
    ServerEffect(s, p, i);
    assert s.chairs[c := k] == s.chairs;
    CurrentSide(s, Apply(s, Depart(c)), c, i, W.Logged(r, Carrying), q.(call := Departing), k);
  }

  lemma SeenBounds(r: W.Ride)
    requires W.RideOk(r)
    ensures |Dedup(r.appSeen)| <= |r.log|
  {
    assert r.Seen(W.App) == r.appSeen;
  }

  lemma DoneKeeps(s: State, step: Step)
    requires Inv(s) && Enabled(s, step) && (step.AcceptDone? || step.DepartDone?)
    ensures Inv(Apply(s, step))
  {
    hide Inv, RideFits, PositionFits, W.RideOk, M.SixPrefix, M.FullInv;
    var c := step.c;
    var k, i, s' := s.chairs[c], s.chairs[c].mind.request.value, Apply(s, step);
    ChairCurrent(s, c, i);
    RideAt(s, i);
    FullOf(s);
    var r, q := Rides(s)[i], s.reqs[i];
    assert Rides(s)[i := r] == Rides(s) && s.chairs[c := k] == s.chairs;
    if step.AcceptDone? {
      AcceptDoneFits(r, q, k, i, s.time);
    } else {
      DepartDoneFits(r, q, k, s.time);
      assert q.st.desired != Matching by {
        DepartingIsPickedUp(r, q, s.time);
      }
    }
    CurrentSide(s, s', c, i, r, s'.reqs[i], s'.chairs[c]);
  }

  lemma DepartingIsPickedUp(r: W.Ride, q: Req, time: int)
    requires RideFits(r, q, time) && q.call == Departing
    ensures q.st.desired == Pickup
  {
  }

  // ---- Moving and posting ------------------------------------------------------------

  /** Without a current ride a chair's position does not matter. */
  lemma FreeChair(rides: seq<W.Ride>, reqs: seq<Req>, k: ChairRec, heard: seq<M.Event>, c: ChairId, loc: Coord, sync: Sync)
    requires |reqs| == |rides| && ChairFits(rides, reqs, k, heard, c) && k.mind.request.None?
    ensures ChairFits(rides, reqs, k.(loc := loc, sync := sync), heard, c)
  {
    var k' := k.(loc := loc, sync := sync);
    forall i | 0 <= i < |rides| && rides[i].chair == Some(c)
      ensures TakenFits(rides[i], reqs[i], i, k', Handled(k', heard))
    {
      assert TakenFits(rides[i], reqs[i], i, k, Handled(k, heard));
    }
  }

  lemma MoveKeeps(s: State, c: ChairId, to: Coord)
    requires Inv(s) && Enabled(s, Move(c, to))
    ensures Inv(Apply(s, Move(c, to)))
  {
    hide Inv, RideFits, PositionFits, ChairFits, W.RideOk, M.SixPrefix, M.FullInv;
    var k, s' := s.chairs[c], Apply(s, Move(c, to));
    if k.mind.request.None? {
      ChairOf(s, c);
      FreeChair(Rides(s), s.reqs, k, M.Heard(s.m, c), c, to, Moved);
      ChairOnly(s, c, k.(loc := to, sync := Moved));
    } else {
      var i := k.mind.request.value;
      ChairCurrent(s, c, i);
      RideAt(s, i);
      FullOf(s);
      var r, q := Rides(s)[i], s.reqs[i];
      MoveFits(r, q, k, to, s.time);
      assert Rides(s)[i := r] == Rides(s) && s.reqs[i := q] == s.reqs;
      CurrentSide(s, s', c, i, r, s'.reqs[i], s'.chairs[c]);
    }
  }

  lemma PostDoneKeeps(s: State, c: ChairId)
    requires Inv(s) && Enabled(s, PostDone(c))
    ensures Inv(Apply(s, PostDone(c)))
  {
    hide Inv, RideFits, PositionFits, ChairFits, W.RideOk, M.SixPrefix, M.FullInv;
    var k, s' := s.chairs[c], Apply(s, PostDone(c));
    if k.mind.request.None? {
      ChairOf(s, c);
      FreeChair(Rides(s), s.reqs, k, M.Heard(s.m, c), c, k.loc, Clean);
      ChairOnly(s, c, k.(sync := Clean));
    } else {
      var i := k.mind.request.value;
      ChairCurrent(s, c, i);
      RideAt(s, i);
      FullOf(s);
      var r, q := Rides(s)[i], s.reqs[i];
      PostDoneFits(r, q, k, s.time);
      assert Rides(s)[i := r] == Rides(s);
      CurrentSide(s, s', c, i, r, q.(call := NoCall), k.(sync := Clean));
    }
  }

  /** A ride that is not closed is the one the server finds. */
  lemma LatestIsCurrent(s: State, c: ChairId, i: RideId)
    requires Inv(s) && i < |Rides(s)| && Rides(s)[i].chair == Some(c) && |Rides(s)[i].log| < 6
    ensures W.LatestOfChair(Rides(s), c) == Some(i)
  {
    hide Inv, M.ServedFit;
    ServedOf(s, c);
    OpenIsLatest(Rides(s), M.Served(s.m, c), c, i);
  }

  lemma ServedOf(s: State, c: ChairId)
    requires Inv(s)
    ensures M.ServedFit(Rides(s), M.Served(s.m, c), c)
  {
    hide M.ServedFit, M.HeardFit, M.LogsFit, M.MatcherFits, RidesFit, UsersFit, ChairsFit;
    assert M.ChairFits(Rides(s), M.Served(s.m, c), M.Heard(s.m, c), c);
  }

  lemma OpenIsLatest(rides: seq<W.Ride>, served: seq<RideId>, c: ChairId, i: RideId)
    requires M.ServedFit(rides, served, c) && i < |rides| && rides[i].chair == Some(c) && |rides[i].log| < 6
    ensures W.LatestOfChair(rides, c) == Some(i)
  {
    M.LatestIsLast(rides, served, c);
    assert i in served;
  }

  /** Coordinates mean nothing to a ride that has not been accepted or is over. */
  lemma UnmovedRide(s: State, j: RideId, at: Coord)
    requires Inv(s) && j < |Rides(s)| && |Rides(s)[j].log| in {1, 6}
    ensures W.CoordinatePosted(Rides(s)[j], at) == Rides(s)[j]
  {
    hide Inv, RideFits;
    RideAt(s, j);
  }

  /** Any other ride of the chair has not been accepted or is over. */
  lemma OtherRides(s: State, c: ChairId, j: RideId)
    requires Inv(s) && c < |s.chairs| && j < |Rides(s)| && Rides(s)[j].chair == Some(c)
    requires s.chairs[c].mind.request != Some(j)
    ensures |Rides(s)[j].log| in {1, 6}
  {
    hide Inv;
    ChairOf(s, c);
    RideAt(s, j);
    assert TakenFits(Rides(s)[j], s.reqs[j], j, s.chairs[c], Handled(s.chairs[c], M.Heard(s.m, c)));
  }

  lemma PostKeeps(s: State, c: ChairId)
    requires Inv(s) && Enabled(s, Post(c))
    ensures Inv(Apply(s, Post(c)))
  {
    hide Inv, RideFits, PositionFits, ChairFits, W.RideOk, M.SixPrefix, M.FullInv, Apply;
    var request := s.chairs[c].mind.request;
    if request.Some? {
      var i := request.value;
      ChairCurrent(s, c, i);
      if |Rides(s)[i].log| < 6 {
        PostForCurrent(s, c, i);
        return;
      }
    }
    PostForNobody(s, c);
  }

  lemma PostForCurrent(s: State, c: ChairId, i: RideId)
    requires Inv(s) && Enabled(s, Post(c)) && s.chairs[c].mind.request == Some(i)
    requires i < |Rides(s)| && |Rides(s)[i].log| < 6
    ensures Inv(Apply(s, Post(c)))
  {
    hide Inv, RideFits, PositionFits, W.RideOk, M.SixPrefix, M.FullInv, W.LatestOfChair, W.CoordinatePosted;
    var k, q := s.chairs[c], W.PostCoordinate(c, s.chairs[c].loc);
    ChairCurrent(s, c, i);
    RideAt(s, i);
    LatestIsCurrent(s, c, i);
    ServerKeepsFull(s, q);
    ServerEffect(s, q, i);
    PostFits(Rides(s)[i], s.reqs[i], k, s.time);
    CurrentStarted(s, c, i);
    assert s.reqs[i := s.reqs[i]] == s.reqs;
    CurrentSide(s, Apply(s, Post(c)), c, i, W.CoordinatePosted(Rides(s)[i], k.loc), s.reqs[i], k.(sync := Posted));
  }

  lemma CurrentStarted(s: State, c: ChairId, i: RideId)
    requires Inv(s) && c < |s.chairs| && s.chairs[c].mind.request == Some(i) && s.chairs[c].sync != Clean
    ensures i < |s.reqs| && s.reqs[i].st.desired != Matching
  {
    hide Inv;
    ChairCurrent(s, c, i);
  }

  /** The posted position changes no ride. */
  lemma PostForNobody(s: State, c: ChairId)
    requires c < |s.chairs|
    requires var i := s.chairs[c].mind.request; i.Some? ==> i.value < |Rides(s)| && |Rides(s)[i.value].log| >= 6
    requires Inv(s) && Enabled(s, Post(c))
    ensures Inv(Apply(s, Post(c)))
  {
    hide Inv, RideFits, PositionFits, ChairFits, W.RideOk, M.SixPrefix, M.FullInv, W.CoordinatePosted, SameForUser;
    var k, q := s.chairs[c], W.PostCoordinate(c, s.chairs[c].loc);
    ServerKeepsFull(s, q);
    ChairOf(s, c);
    PostedFits(s, c);
    var target := W.LatestOfChair(Rides(s), c);
    if target.None? {
      ChairOnly(s, c, k.(sync := Posted));
    } else {
      var j := target.value;
      if k.mind.request != Some(j) {
        OtherRides(s, c, j);
      }
      RideAt(s, j);
      LogAtMostSix(Rides(s)[j]);
      UnmovedRide(s, j, k.loc);
      ServerEffect(s, q, j);
      SameAsItself(Rides(s)[j], s.reqs[j]);
      assert s.reqs[j := s.reqs[j]] == s.reqs && Rides(s)[j := Rides(s)[j]] == Rides(s);
      ChairSide(s, Apply(s, Post(c)), j, Rides(s)[j], s.reqs[j], c, k.(sync := Posted));
    }
  }

  lemma LogAtMostSix(r: W.Ride)
    requires M.SixPrefix(r.log)
    ensures |r.log| <= 6
  {
  }

  lemma SameAsItself(r: W.Ride, q: Req)
    ensures SameForUser(r, q, r, q)
  {
  }

  lemma PostedFits(s: State, c: ChairId)
    requires c < |s.chairs| && |s.reqs| == |Rides(s)| && s.chairs[c].sync != Clean && Inv(s)
    requires var i := s.chairs[c].mind.request; i.Some? ==> i.value < |Rides(s)| && |Rides(s)[i.value].log| >= 6
    ensures ChairFits(Rides(s), s.reqs, s.chairs[c].(sync := Posted), M.Heard(s.m, c), c)
  {
    hide Inv, W.RideOk, M.SixPrefix, RideFits, ChairFits;
    ChairOf(s, c);
    var k := s.chairs[c];
    if k.mind.request.None? {
      FreeChair(Rides(s), s.reqs, k, M.Heard(s.m, c), c, k.loc, Posted);
    } else {
      var i := k.mind.request.value;
      RideAt(s, i);
      ChairCurrent(s, c, i);
      CurrentStarted(s, c, i);
      OverPosition(Rides(s)[i], s.reqs[i], k, s.time);
      assert Rides(s)[i := Rides(s)[i]] == Rides(s) && s.reqs[i := s.reqs[i]] == s.reqs;
      OwnCurrent(Rides(s), s.reqs, k, M.Heard(s.m, c), c, i, Rides(s)[i], s.reqs[i], k.(sync := Posted));
    }
  }

  lemma OverPosition(r: W.Ride, q: Req, k: ChairRec, time: int)
    requires RideFits(r, q, time) && PositionFits(r, q, k) && |r.log| >= 6 && k.sync != Clean
    ensures PositionFits(r, q, k.(sync := Posted))
  {
  }

  // ---- Notifications are sent --------------------------------------------------------

  lemma HeardMore(rides: seq<W.Ride>, reqs: seq<Req>, k: ChairRec, heard: seq<M.Event>, heard': seq<M.Event>, c: ChairId)
    requires |reqs| == |rides| && ChairFits(rides, reqs, k, heard, c) && heard <= heard'
    ensures ChairFits(rides, reqs, k, heard', c)
  {
    assert heard'[..k.handled] == heard[..k.handled];
  }

  lemma ChairPollRide(r: W.Ride, q: Req, time: int)
    requires RideFits(r, q, time)
    ensures var r' := W.Notified(r, W.Chair);
            RideFits(r', q, time) && SameForUser(r, q, r', q) && SameForChair(r, q, r', q)
  {
  }

  lemma ChairPollKeeps(s: State, c: ChairId)
    requires Inv(s) && Enabled(s, ChairPoll(c))
    ensures Inv(Apply(s, ChairPoll(c)))
  {
    hide Inv, RideFits, ChairFits, W.RideOk, M.SixPrefix, M.FullInv, W.Notified, SameForUser, SameForChair;
    var q, s' := W.ChairPoll(c), Apply(s, ChairPoll(c));
    ServerKeepsFull(s, q);
    ChairOf(s, c);
    var target := W.LatestOfChair(Rides(s), c);
    if target.Some? {
      var j := target.value;
      RideAt(s, j);
      ServerEffect(s, q, j);
      var r' := W.Notified(Rides(s)[j], W.Chair);
      ChairPollRide(Rides(s)[j], s.reqs[j], s.time);
      assert s.reqs[j := s.reqs[j]] == s.reqs && s.chairs[c := s.chairs[c]] == s.chairs;
      ChairFrame(Rides(s), s.reqs, j, r', s.reqs[j], s.chairs[c], M.Heard(s.m, c), c);
      HeardMore(Rides(s)[j := r'], s.reqs, s.chairs[c], M.Heard(s.m, c), M.Heard(s'.m, c), c);
      SameChair(Rides(s)[j]);
      ChairSide(s, s', j, r', s.reqs[j], c, s.chairs[c]);
    } else {
      assert s' == s;
    }
  }

  lemma SameChair(r: W.Ride)
    ensures W.Notified(r, W.Chair).chair == r.chair
  {
  }

  // ---- The matcher -------------------------------------------------------------------

  lemma MatcherOnlyKeeps(s: State, m: M.Step)
    requires Inv(s) && Enabled(s, Matcher(m)) && !m.Update?
    ensures Inv(Apply(s, Matcher(m)))
  {
    hide RideFits, UsersFit, ChairFits, M.Inv, M.ChairFree;
    M.StepKeepsFull(s.m, m);
    var s' := Apply(s, Matcher(m));
    assert Rides(s') == Rides(s);
    assert forall c :: M.Heard(s'.m, c) == M.Heard(s.m, c);
  }

  lemma AssignedRide(r: W.Ride, q: Req, c: ChairId, now: nat, time: int)
    requires RideFits(r, q, time) && r.chair.None? && W.RideOk(r)
    ensures |r.log| == 1
    ensures var r' := r.(chair := Some(c), updatedAt := now); RideFits(r', q, time) && SameForUser(r, q, r', q)
  {
    hide W.LogOk, W.SentPrefix;
    NothingSeen(r);
  }

  /** Of a ride with one row, nothing else can have been sent. */
  lemma NothingSeen(r: W.Ride)
    requires W.RideOk(r) && |r.log| <= 1
    ensures forall n | 0 <= n < |r.appSeen| :: r.appSeen[n] == 0
  {
    hide W.LogOk;
    assert r.Seen(W.App) == r.appSeen;
    forall n | 0 <= n < |r.appSeen|
      ensures r.appSeen[n] == 0
    {
      SeenIsSent(r.appSeen, |Dedup(r.appSeen)|, n);
    }
  }

  /** Every row carried is one of those that have been sent. */
  lemma SeenIsSent(seen: seq<nat>, a: nat, n: nat)
    requires Dedup(seen) == UpTo(a) && n < |seen|
    ensures seen[n] < a
  {
    DedupStep(seen, n);
    var d := Dedup(seen[..n + 1]);
    assert seen[n] == d[|d| - 1] == UpTo(a)[|d| - 1];
  }

  lemma NewAssignment(rides: seq<W.Ride>, reqs: seq<Req>, k: ChairRec, heard: seq<M.Event>, c: ChairId, i: RideId, now: nat)
    requires |reqs| == |rides| && ChairFits(rides, reqs, k, heard, c)
    requires i < |rides| && rides[i].chair.None? && |rides[i].log| == 1
    ensures ChairFits(rides[i := rides[i].(chair := Some(c), updatedAt := now)], reqs, k, heard, c)
  {
  }

  lemma UpdateKeeps(s: State)
    requires Inv(s) && Enabled(s, Matcher(M.Update))
    ensures Inv(Apply(s, Matcher(M.Update)))
  {
    hide RideFits, UserFits, TicksFit, ChairFits, M.Inv, SameForUser, SameForChair, W.RideOk, M.SixPrefix;
    var i, c, s' := s.m.matcher.ride, s.m.matcher.chair, Apply(s, Matcher(M.Update));
    M.StepKeepsFull(s.m, M.Update);
    MatchedRide(s);
    RideAt(s, i);
    var r, q := Rides(s)[i], s.reqs[i];
    var r' := r.(chair := Some(c), updatedAt := s.m.t.clock + 1);
    AssignedRide(r, q, c, s.m.t.clock + 1, s.time);
    assert Rides(s') == Rides(s)[i := r'] && s.reqs[i := q] == s.reqs;
    RidesAfter(Rides(s), s.reqs, s.time, i, r', q);
    UsersSame(Rides(s), s.reqs, s.users, s.time, i, r', q);
    forall d | 0 <= d < |s.chairs|
      ensures ChairFits(Rides(s'), s.reqs, s.chairs[d], M.Heard(s'.m, d), d)
    {
      ChairOf(s, d);
      if d == c {
        NewAssignment(Rides(s), s.reqs, s.chairs[d], M.Heard(s.m, d), d, i, s.m.t.clock + 1);
      } else {
        ChairFrame(Rides(s), s.reqs, i, r', q, s.chairs[d], M.Heard(s.m, d), d);
      }
    }
  }

  lemma MatchedRide(s: State)
    requires Inv(s) && s.m.matcher.Found?
    ensures s.m.matcher.ride < |Rides(s)| && Rides(s)[s.m.matcher.ride].chair.None?
  {
  }
}
