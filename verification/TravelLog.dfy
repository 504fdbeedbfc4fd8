/** The server's log of posted coordinates, the window-function sum over it, and the posting
    protocol that keeps it in step with the chair's own history. */
module TravelLog {
  import opened Grid
  import opened Wrappers
  import opened Location

  /** One row of the location table. */
  datatype Row = Row(coord: Coord, at: int)

  /** SUM over each row's distance to the LAG row; the first row contributes nothing. */
  function LagSum(rows: seq<Row>): nat {
    if |rows| <= 1 then 0
    else
      var k := |rows| - 1;
      LagSum(rows[..k]) + Dist(rows[k - 1].coord, rows[k].coord)
  }

  lemma LagSumAppend(rows: seq<Row>, r: Row)
    ensures LagSum(rows + [r]) ==
            LagSum(rows) + if rows == [] then 0 else Dist(rows[|rows| - 1].coord, r.coord)
  {
    assert (rows + [r])[..|rows|] == rows;
  }

  // ---- The posting protocol ----------------------------------------------------------

  /** Whether the chair has yet to post its position, or has posted it and awaits the answer.
      It does not move before that answer. */
  datatype Phase = Settled | Unposted | Unanswered

  datatype Sync = Sync(initial: Coord, entries: seq<Entry>, rows: seq<Row>, phase: Phase)

  datatype Step =
    | Place(time: int)
    | Move(to: Coord, time: int)
    | Post(at: int)     // the server inserts a row
    | Repost(at: int)   // the answer was lost: the same position again
    | Answer            // the chair learns the time of the last row

  predicate Enabled(s: Sync, step: Step) {
    match step
    case Place(_) => s.entries == [] && s.phase == Settled
    case Move(_, _) => s.entries != [] && s.phase == Settled
    case Post(at) => s.phase == Unposted && s.entries != [] && LaterThanRows(s.rows, at)
    case Repost(at) => s.phase == Unanswered && s.entries != [] && LaterThanRows(s.rows, at)
    case Answer => s.phase == Unanswered && s.entries != [] && s.rows != []
  }

  predicate LaterThanRows(rows: seq<Row>, at: int) {
    rows != [] ==> rows[|rows| - 1].at < at
  }

  function Apply(s: Sync, step: Step): Sync
    requires Enabled(s, step)
  {
    match step
    case Place(time) => s.(entries := [Entry(s.initial, time, None)], phase := Unposted)
    case Move(to, time) => s.(entries := s.entries + [Entry(to, time, None)], phase := Unposted)
    case Post(at) => s.(rows := s.rows + [Row(s.entries[|s.entries| - 1].coord, at)], phase := Unanswered)
    case Repost(at) => s.(rows := s.rows + [Row(s.entries[|s.entries| - 1].coord, at)])
    case Answer =>
      var k := |s.entries| - 1;
      s.(entries := s.entries[k := s.entries[k].(serverTime := Some(s.rows[|s.rows| - 1].at))], phase := Settled)
  }

  ghost predicate IsRun(s: Sync, steps: seq<Step>)
    decreases |steps|
  {
    steps == [] || (Enabled(s, steps[0]) && IsRun(Apply(s, steps[0]), steps[1..]))
  }

  ghost function After(s: Sync, steps: seq<Step>): Sync
    requires IsRun(s, steps)
    decreases |steps|
  {
    if steps == [] then s else After(Apply(s, steps[0]), steps[1..])
  }

  function Start(initial: Coord): Sync {
    Sync(initial, [], [], Settled)
  }

  /** The positions that have reached the server's log. */
  function Posted(s: Sync): seq<Entry> {
    if s.phase == Unposted && s.entries != [] then s.entries[..|s.entries| - 1] else s.entries
  }

  // ---- With or without lost answers --------------------------------------------------

  ghost predicate InStep(s: Sync) {
    && (s.entries == [] ==> s.phase == Settled)
    && (s.entries != [] ==> s.entries[0].coord == s.initial)
    && (Posted(s) == [] <==> s.rows == [])
    && (s.rows != [] ==> s.rows[|s.rows| - 1].coord == Posted(s)[|Posted(s)| - 1].coord)
    && LagSum(s.rows) == PathFrom(s.initial, Posted(s))
    && (forall i | 0 <= i < |s.entries| ::
          if i < |s.entries| - 1 || s.phase == Settled then
            s.rows != [] && AckedBy(s.entries[i], s.rows[|s.rows| - 1].at)
          else s.entries[i].serverTime.None?)
  }

  lemma MoveKeepsInStep(s: Sync, to: Coord, time: int)
    requires InStep(s) && Enabled(s, Move(to, time))
    ensures InStep(Apply(s, Move(to, time)))
  {
    var next := Apply(s, Move(to, time));
    assert next.entries[..|next.entries| - 1] == s.entries;
    assert Posted(next) == s.entries;
  }

  lemma PostKeepsInStep(s: Sync, at: int)
    requires InStep(s) && Enabled(s, Post(at))
    ensures InStep(Apply(s, Post(at)))
  {
    hide LagSum, PathFrom;
    var k := |s.entries| - 1;
    LagSumAppend(s.rows, Row(s.entries[k].coord, at));
    assert s.entries == s.entries[..k] + [s.entries[k]];
    PathAppend(s.initial, s.entries[..k], s.entries[k]);
    assert Posted(Apply(s, Post(at))) == s.entries;
  }

  lemma RepostKeepsInStep(s: Sync, at: int)
    requires InStep(s) && Enabled(s, Repost(at))
    ensures InStep(Apply(s, Repost(at)))
  {
    LagSumAppend(s.rows, Row(s.entries[|s.entries| - 1].coord, at));
    assert Posted(Apply(s, Repost(at))) == s.entries;
  }

  lemma AnswerKeepsInStep(s: Sync)
    requires InStep(s) && Enabled(s, Answer)
    ensures InStep(Apply(s, Answer))
  {
    PathIgnoresTimes(s.initial, s.entries, |s.entries| - 1, Some(s.rows[|s.rows| - 1].at));
    assert Posted(Apply(s, Answer)) == Apply(s, Answer).entries;
  }

  lemma StepKeepsInStep(s: Sync, step: Step)
    requires InStep(s) && Enabled(s, step)
    ensures InStep(Apply(s, step)) && Apply(s, step).initial == s.initial
  {
    match step
    case Place(_) =>
      assert Posted(Apply(s, step)) == [];
    case Move(to, time) => MoveKeepsInStep(s, to, time);
    case Post(at) => PostKeepsInStep(s, at);
    case Repost(at) => RepostKeepsInStep(s, at);
    case Answer => AnswerKeepsInStep(s);
  }

  lemma {:induction false} RunKeepsInStep(s: Sync, steps: seq<Step>)
    requires InStep(s) && IsRun(s, steps)
    ensures InStep(After(s, steps)) && After(s, steps).initial == s.initial
    decreases |steps|
  {
    if steps != [] {
      StepKeepsInStep(s, steps[0]);
      RunKeepsInStep(Apply(s, steps[0]), steps[1..]);
    }
  }

  /** Over every run, also one in which lost answers repeat rows: once every position is
      acknowledged, the server's sum, the distance until any later time and the total are
      the same number. */
  lemma SumsAgreeWhenSettled(initial: Coord, steps: seq<Step>, t: int)
    requires IsRun(Start(initial), steps)
    requires var s := After(Start(initial), steps);
             s.phase == Settled && (s.rows != [] ==> t >= s.rows[|s.rows| - 1].at)
    ensures var s := After(Start(initial), steps);
            LagSum(s.rows) == PathFrom(initial, s.entries) == DistanceUntil(initial, s.entries, t)
  {
    RunKeepsInStep(Start(initial), steps);
    var s := After(Start(initial), steps);
    DistanceUntilAll(initial, s.entries, t);
  }

  // ---- Reports of the travelled distance ---------------------------------------------

  /** What the owner's chair list shows: the sum and the time of the last row. */
  datatype Report = Report(distance: nat, updatedAt: int)

  function Query(s: Sync): Report
    requires s.rows != []
  {
    Report(LagSum(s.rows), s.rows[|s.rows| - 1].at)
  }

  /** The simulator's test of a report: the distance until the report's time, or the total
      in case the acknowledgement is still on its way. */
  predicate DistanceAccepted(s: Sync, r: Report) {
    r.distance == DistanceUntil(s.initial, s.entries, r.updatedAt) || r.distance == PathFrom(s.initial, s.entries)
  }

  /** The distance until row k - 1 is the distance over the first k positions, if these are
      acknowledged with their own rows' times and later ones are not or later. */
  lemma {:induction false} DistanceUntilRow(prev: Coord, es: seq<Entry>, k: nat, t: int)
    requires k <= |es|
    requires forall i | 0 <= i < k :: AckedBy(es[i], t)
    requires forall i | k <= i < |es| && es[i].serverTime.Some? :: es[i].serverTime.value > t
    ensures DistanceUntil(prev, es, t) == PathFrom(prev, es[..k])
    decreases |es|
  {
    if es == [] {
    } else if k == 0 {
      assert forall i | 0 <= i < |es[1..]| :: es[1..][i] == es[i + 1];
      if es[0].serverTime.None? {
        DistanceUntilRow(prev, es[1..], 0, t);
      }
    } else {
      assert forall i | 0 <= i < |es[1..]| :: es[1..][i] == es[i + 1];
      assert es[..k][1..] == es[1..][..k - 1];
      DistanceUntilRow(es[0].coord, es[1..], k - 1, t);
    }
  }

  /** Exactly the first k positions are acknowledged by t, and every acknowledgement still to
      come is later. */
  ghost predicate Cut(s: Sync, k: nat, t: int) {
    && k <= |s.entries| && s.rows != [] && s.rows[|s.rows| - 1].at >= t
    && (forall i | 0 <= i < k :: AckedBy(s.entries[i], t))
    && (forall i | k <= i < |s.entries| && s.entries[i].serverTime.Some? :: s.entries[i].serverTime.value > t)
    && (s.phase == Unanswered ==> k < |s.entries| && s.rows[|s.rows| - 1].at > t)
    && (s.phase == Unposted ==> k < |s.entries|)
  }

  lemma StepKeepsCut(s: Sync, step: Step, k: nat, t: int)
    requires Cut(s, k, t) && InStep(s) && Enabled(s, step)
    ensures Cut(Apply(s, step), k, t) && Apply(s, step).entries[..k] == s.entries[..k]
  {
    hide LagSum, PathFrom;
  }

  lemma {:induction false} RunKeepsCut(s: Sync, steps: seq<Step>, k: nat, t: int)
    requires Cut(s, k, t) && InStep(s) && IsRun(s, steps)
    ensures Cut(After(s, steps), k, t) && After(s, steps).entries[..k] == s.entries[..k]
    decreases |steps|
  {
    hide InStep, Enabled, Apply;
    if steps != [] {
      StepKeepsCut(s, steps[0], k, t);
      StepKeepsInStep(s, steps[0]);
      RunKeepsCut(Apply(s, steps[0]), steps[1..], k, t);
    }
  }

  /** The leg that the last row ended when it was first posted. */
  ghost function LastLeg(s: Sync): nat
    requires Posted(s) != []
  {
    var ps := Posted(s);
    Dist(if |ps| == 1 then s.initial else ps[|ps| - 2].coord, ps[|ps| - 1].coord)
  }

  lemma PathWithoutLast(s: Sync)
    requires Posted(s) != []
    ensures var ps := Posted(s); PathFrom(s.initial, ps) == PathFrom(s.initial, ps[..|ps| - 1]) + LastLeg(s)
  {
    var ps := Posted(s);
    assert ps == ps[..|ps| - 1] + [ps[|ps| - 1]];
    PathAppend(s.initial, ps[..|ps| - 1], ps[|ps| - 1]);
  }

  /** What the distance until the report's time is from then on. */
  lemma DistanceSince(s: Sync, since: seq<Step>, k: nat, t: int)
    requires Cut(s, k, t) && InStep(s) && IsRun(s, since)
    ensures var u := After(s, since); DistanceUntil(u.initial, u.entries, t) == PathFrom(s.initial, s.entries[..k])
  {
    hide InStep, PathFrom, DistanceUntil;
    RunKeepsCut(s, since, k, t);
    RunKeepsInStep(s, since);
    DistanceUntilRow(s.initial, After(s, since).entries, k, t);
  }

  /** The row that the report ends with is acknowledged, or it is and the answer is read next. */
  lemma AcknowledgedCut(s: Sync)
    requires InStep(s) && s.rows != [] && s.phase != Unanswered
    ensures Cut(s, |Posted(s)|, s.rows[|s.rows| - 1].at) && s.entries[..|Posted(s)|] == Posted(s)
  {
    hide LagSum, PathFrom;
  }

  lemma AnsweredCut(s: Sync)
    requires InStep(s) && Enabled(s, Answer)
    ensures var n := Apply(s, Answer);
            && Cut(n, |s.entries|, s.rows[|s.rows| - 1].at)
            && PathFrom(n.initial, n.entries[..|s.entries|]) == PathFrom(s.initial, s.entries)
  {
    hide LagSum, PathFrom, Dist;
    var n := Apply(s, Answer);
    assert n.entries[..|s.entries|] == n.entries;
    PathIgnoresTimes(s.initial, s.entries, |s.entries| - 1, Some(s.rows[|s.rows| - 1].at));
  }

  lemma RepostedCut(s: Sync, at: int)
    requires InStep(s) && Enabled(s, Repost(at)) && s.rows != []
    ensures Cut(Apply(s, Repost(at)), |s.entries| - 1, s.rows[|s.rows| - 1].at)
  {
    hide LagSum, PathFrom;
  }

  /** The report's own row is posted again right after the report. */
  predicate RowIsReposted(since: seq<Step>) {
    since != [] && since[0].Repost?
  }

  lemma AcceptedAfterAnswer(s: Sync, since: seq<Step>)
    requires InStep(s) && s.rows != [] && IsRun(s, since) && s.phase != Unanswered
    ensures DistanceAccepted(After(s, since), Query(s))
  {
    AcknowledgedCut(s);
    DistanceSince(s, since, |Posted(s)|, s.rows[|s.rows| - 1].at);
  }

  lemma AcceptedWithAnswer(s: Sync, since: seq<Step>)
    requires InStep(s) && s.rows != [] && IsRun(s, since) && s.phase == Unanswered && !RowIsReposted(since)
    ensures DistanceAccepted(After(s, since), Query(s))
  {
    if since == [] {
      assert Posted(s) == s.entries;
    } else {
      assert since[0] == Answer;
      AnsweredCut(s);
      StepKeepsInStep(s, Answer);
      DistanceSince(Apply(s, Answer), since[1..], |s.entries|, s.rows[|s.rows| - 1].at);
    }
  }

  lemma AcceptedAfterRepost(s: Sync, since: seq<Step>)
    requires InStep(s) && s.rows != [] && IsRun(s, since) && RowIsReposted(since)
    ensures Posted(s) == s.entries != []
    ensures var u := After(s, since);
            DistanceAccepted(u, Query(s)) <==> LastLeg(s) == 0 || PathFrom(u.initial, u.entries) == Query(s).distance
  {
    var n, k, t := Apply(s, since[0]), |s.entries| - 1, s.rows[|s.rows| - 1].at;
    RepostedCut(s, since[0].at);
    StepKeepsInStep(s, since[0]);
    DistanceSince(n, since[1..], k, t);
    PathWithoutLast(s);
    assert n.entries[..k] == s.entries[..k];
  }

  /** For every run with whatever lost answers, a report is accepted at a later moment if and
      only if its own last row was not posted again after the report, or that row ended no
      leg, or the chair has not travelled on. */
  lemma ReportAcceptedIff(initial: Coord, before: seq<Step>, since: seq<Step>)
    requires IsRun(Start(initial), before) && After(Start(initial), before).rows != []
    requires IsRun(After(Start(initial), before), since)
    ensures var s := After(Start(initial), before);
            var u := After(s, since);
            && Posted(s) != []
            && (DistanceAccepted(u, Query(s)) <==>
                  !RowIsReposted(since) || LastLeg(s) == 0 || PathFrom(initial, u.entries) == Query(s).distance)
  {
    assert InStep(Start(initial));
    hide InStep, DistanceAccepted, Query, LastLeg;
    RunKeepsInStep(Start(initial), before);
    var s := After(Start(initial), before);
    RowsArePosted(s);
    RunKeepsInStep(s, since);
    if RowIsReposted(since) {
      AcceptedAfterRepost(s, since);
    } else if s.phase == Unanswered {
      AcceptedWithAnswer(s, since);
    } else {
      AcceptedAfterAnswer(s, since);
    }
  }

  lemma RowsArePosted(s: Sync)
    requires InStep(s) && s.rows != []
    ensures Posted(s) != []
  {
  }

  // ---- A rejection that can still come -----------------------------------------------

  /** From every moment the chair can travel on. */
  lemma TravelOn(s: Sync) returns (more: seq<Step>)
    requires InStep(s) && s.rows != []
    ensures IsRun(s, more) && PathFrom(s.initial, After(s, more).entries) > PathFrom(s.initial, s.entries)
  {
    hide InStep, PathFrom, LagSum;
    if s.phase == Settled {
      more := MoveOn(s);
    } else if s.phase == Unanswered {
      more := AnswerAndMove(s);
    } else {
      var post := Post(s.rows[|s.rows| - 1].at + 1);
      RowsHaveEntries(s);
      StepKeepsInStep(s, post);
      var rest := AnswerAndMove(Apply(s, post));
      more := [post] + rest;
      assert more[1..] == rest;
    }
  }

  lemma RowsHaveEntries(s: Sync)
    requires InStep(s) && s.rows != []
    ensures s.entries != []
  {
  }

  lemma AnswerAndMove(s: Sync) returns (more: seq<Step>)
    requires InStep(s) && s.rows != [] && s.phase == Unanswered
    ensures IsRun(s, more) && PathFrom(s.initial, After(s, more).entries) > PathFrom(s.initial, s.entries)
  {
    hide InStep, PathFrom, LagSum;
    RowsHaveEntries(s);
    StepKeepsInStep(s, Answer);
    PathIgnoresTimes(s.initial, s.entries, |s.entries| - 1, Some(s.rows[|s.rows| - 1].at));
    var rest := MoveOn(Apply(s, Answer));
    more := [Answer] + rest;
    assert more[1..] == rest;
  }

  lemma MoveOn(s: Sync) returns (more: seq<Step>)
    requires InStep(s) && s.rows != [] && s.phase == Settled
    ensures IsRun(s, more) && PathFrom(s.initial, After(s, more).entries) > PathFrom(s.initial, s.entries)
  {
    RowsHaveEntries(s);
    var last := s.entries[|s.entries| - 1].coord;
    var to := Coord(last.x + 1, last.y);
    more := [Move(to, 0)];
    assert more[1..] == [] && IsRun(Apply(s, more[0]), []);
    PathAppend(s.initial, s.entries, Entry(to, 0, None));
  }

  lemma {:induction false} RunConcat(s: Sync, a: seq<Step>, b: seq<Step>)
    requires IsRun(s, a) && IsRun(After(s, a), b)
    ensures IsRun(s, a + b) && After(s, a + b) == After(After(s, a), b)
    decreases |a|
  {
    hide Enabled, Apply;
    if a == [] {
      assert a + b == b;
    } else {
      assert (a + b)[1..] == a[1..] + b;
      RunConcat(Apply(s, a[0]), a[1..], b);
    }
  }

  /** Once its own row has been posted again, a report is rejected at some later moment if and
      only if the leg which that row ended is longer than zero. */
  lemma RepostedReportRejectedIff(initial: Coord, before: seq<Step>, since: seq<Step>)
    requires IsRun(Start(initial), before) && After(Start(initial), before).rows != []
    requires IsRun(After(Start(initial), before), since) && RowIsReposted(since)
    ensures var s := After(Start(initial), before);
            && Posted(s) != []
            && ((exists more :: IsRun(After(s, since), more) && !DistanceAccepted(After(After(s, since), more), Query(s)))
                <==> LastLeg(s) > 0)
  {
    assert InStep(Start(initial));
    hide InStep, DistanceAccepted, LastLeg, IsRun, After, LagSum;
    var s := After(Start(initial), before);
    RunKeepsInStep(Start(initial), before);
    RunKeepsInStep(s, since);
    RowsArePosted(s);
    var u := After(s, since);
    forall more | IsRun(u, more)
      ensures !DistanceAccepted(After(u, more), Query(s)) <==>
              LastLeg(s) > 0 && PathFrom(initial, After(u, more).entries) != Query(s).distance
    {
      RunConcat(s, since, more);
      ReportAcceptedIff(initial, before, since + more);
      RunKeepsInStep(u, more);
    }
    NeverShorter(s, since);
    RowsStay(s, since);
    var more := TravelOn(u);
    if LastLeg(s) > 0 {
      ReportIsPath(s, since);
      assert !DistanceAccepted(After(u, more), Query(s));
    }
  }

  /** A report whose row is not acknowledged yet shows the whole path. */
  lemma ReportIsPath(s: Sync, since: seq<Step>)
    requires InStep(s) && s.rows != [] && IsRun(s, since) && RowIsReposted(since)
    ensures Query(s).distance == PathFrom(s.initial, s.entries)
  {
  }

  lemma StepNeverShorter(s: Sync, step: Step)
    requires InStep(s) && Enabled(s, step) && s.entries != []
    ensures PathFrom(s.initial, Apply(s, step).entries) >= PathFrom(s.initial, s.entries)
    ensures s.rows <= Apply(s, step).rows && Apply(s, step).entries != []
  {
    match step
    case Move(to, time) => PathAppend(s.initial, s.entries, Entry(to, time, None));
    case Answer => PathIgnoresTimes(s.initial, s.entries, |s.entries| - 1, Some(s.rows[|s.rows| - 1].at));
    case _ =>
  }

  lemma {:induction false} NeverShorter(s: Sync, steps: seq<Step>)
    requires InStep(s) && IsRun(s, steps) && s.rows != []
    ensures PathFrom(s.initial, After(s, steps).entries) >= PathFrom(s.initial, s.entries)
    decreases |steps|
  {
    hide InStep, PathFrom, Enabled, Apply;
    if steps != [] {
      RowsHaveEntries(s);
      StepNeverShorter(s, steps[0]);
      StepKeepsInStep(s, steps[0]);
      NeverShorter(Apply(s, steps[0]), steps[1..]);
    }
  }

  lemma {:induction false} RowsStay(s: Sync, steps: seq<Step>)
    requires IsRun(s, steps) && s.rows != []
    ensures After(s, steps).rows != []
    decreases |steps|
  {
    if steps != [] {
      RowsStay(Apply(s, steps[0]), steps[1..]);
    }
  }

  /** Such a rejection is within reach: a lost answer after the very first leg. */
  lemma LostAnswerIsRejected()
    ensures exists before: seq<Step>, since: seq<Step> ::
              && IsRun(Start(Coord(0, 0)), before)
              && var s := After(Start(Coord(0, 0)), before);
                 s.rows != [] && IsRun(s, since) && !DistanceAccepted(After(s, since), Query(s))
  {
    hide DistanceAccepted;
    var o := Coord(0, 0);
    var s0 := Start(o);
    var before := [Place(0), Post(10), Answer, Move(Coord(5, 0), 1), Post(20)];
    RunOf5(s0, before);
    var s := After(s0, before);
    var since := [Repost(30)];
    assert since[1..] == [] && IsRun(Apply(s, Repost(30)), []);
    RepostedReportRejectedIff(o, before, since);
    assert Posted(s) == s.entries && LastLeg(s) == 5;
    var more :| IsRun(After(s, since), more) && !DistanceAccepted(After(After(s, since), more), Query(s));
    RunConcat(s, since, more);
  }

  lemma RunOf3(s: Sync, steps: seq<Step>)
    requires |steps| == 3 && Enabled(s, steps[0]) && Enabled(Apply(s, steps[0]), steps[1])
    requires Enabled(Apply(Apply(s, steps[0]), steps[1]), steps[2])
    ensures IsRun(s, steps)
    ensures After(s, steps) == Apply(Apply(Apply(s, steps[0]), steps[1]), steps[2])
  {
    var n := Apply(s, steps[0]);
    var m, last := Apply(n, steps[1]), [steps[2]];
    assert steps[1..][1..] == last && last[1..] == [];
    assert IsRun(Apply(m, steps[2]), []);
    assert IsRun(m, last) && After(m, last) == Apply(m, steps[2]);
    assert steps[1..][0] == steps[1] && IsRun(n, steps[1..]) && After(n, steps[1..]) == After(m, last);
  }

  lemma RunOf5(s: Sync, steps: seq<Step>)
    requires |steps| == 5 && Enabled(s, steps[0]) && Enabled(Apply(s, steps[0]), steps[1])
    requires var m := Apply(Apply(s, steps[0]), steps[1]);
             Enabled(m, steps[2]) && Enabled(Apply(m, steps[2]), steps[3]) &&
             Enabled(Apply(Apply(m, steps[2]), steps[3]), steps[4])
    ensures IsRun(s, steps)
    ensures var m := Apply(Apply(s, steps[0]), steps[1]);
            After(s, steps) == Apply(Apply(Apply(m, steps[2]), steps[3]), steps[4])
  {
    var n := Apply(s, steps[0]);
    var m := Apply(n, steps[1]);
    var rest := [steps[2], steps[3], steps[4]];
    assert steps[1..][1..] == rest;
    RunOf3(m, rest);
    assert steps[1..][0] == steps[1] && IsRun(n, steps[1..]) && After(n, steps[1..]) == After(m, rest);
  }
}
