/** The grid on which chairs move: Manhattan distance, one randomised move towards a
    target, and whole walks made of such moves. A random draw is an argument. */
module Grid {

  datatype Coord = Coord(x: int, y: int)

  function Abs(n: int): nat {
    if n < 0 then -n else n
  }

  function Min(a: int, b: int): int {
    if a < b then a else b
  }

  function Max(a: int, b: int): int {
    if a < b then b else a
  }

  function Dist(a: Coord, b: Coord): nat {
    Abs(a.x - b.x) + Abs(a.y - b.y)
  }

  /** n lies between a and b, whichever is the larger. */
  predicate Between(a: int, n: int, b: int) {
    a <= n <= b || b <= n <= a
  }

  /** p lies in the rectangle with corners a and b. */
  predicate InRect(p: Coord, a: Coord, b: Coord) {
    Between(a.x, p.x, b.x) && Between(a.y, p.y, b.y)
  }

  /** The number n steps from a in the direction of b. */
  function Toward(a: int, b: int, n: nat): int {
    if a <= b then a + n else a - n
  }

  /** Where one move of length `step` ends when `draw` units of it are meant for the x axis:
      y takes what x leaves over, and x takes back what y cannot use. */
  function Advance(c: Coord, target: Coord, step: nat, draw: nat): (to: Coord)
    requires draw <= step
    ensures Dist(c, to) == Min(step, Dist(c, target))
    ensures Dist(to, target) == Dist(c, target) - Min(step, Dist(c, target))
    ensures InRect(to, c, target)
  {
    var dx, dy := Abs(c.x - target.x), Abs(c.y - target.y);
    var my := Min(step - Min(draw, dx), dy);
    var mx := Min(step - my, dx);
    Coord(Toward(c.x, target.x, mx), Toward(c.y, target.y, my))
  }

  /** One axis: at most n units in the direction of the target; what is too much is left. */
  method MoveAlong(from: int, target: int, n: nat) returns (to: int, left: nat)
    ensures to == Toward(from, target, Min(n, Abs(from - target)))
    ensures left == n - Min(n, Abs(from - target))
  {
    to, left := from, 0;
    if from < target {
      var diff := target - (from + n);
      if diff < 0 {
        to, left := target, -diff;
      } else {
        to := from + n;
      }
    } else if from > target {
      var diff := (from - n) - target;
      if diff < 0 {
        to, left := target, -diff;
      } else {
        to := from - n;
      }
    } else {
      left := n;
    }
  }

  /** `Coordinate.MoveToward`: adjusts x, then y with what x leaves over, then x again with
      what y leaves over. */
  method MoveToward(c: Coord, target: Coord, step: nat, draw: nat) returns (to: Coord)
    requires draw <= step
    ensures to == Advance(c, target, step, draw)
    ensures Abs(to.x - c.x) >= Min(draw, Abs(target.x - c.x))
    ensures Abs(to.y - c.y) >= Min(step - draw, Abs(target.y - c.y))
  {
    hide Toward, Dist, InRect;
    var x, y := draw, step - draw;
    var toX, left := MoveAlong(c.x, target.x, x);
    y := y + left;
    var toY, remain := MoveAlong(c.y, target.y, y);
    if remain > 0 {
      toX, left := MoveAlong(toX, target.x, remain);
    }
    AgainAlong(c.x, target.x, draw, remain);
    to := Coord(toX, toY);
    AxesGetTheirShare(c, target, step, draw);
  }

  /** Each axis moves at least by what the draw means for it, as far as it needs it. Together
      with the length of the move this leaves only one place to end. */
  lemma AxesGetTheirShare(c: Coord, target: Coord, step: nat, draw: nat)
    requires draw <= step
    ensures var to := Advance(c, target, step, draw);
            && Abs(to.x - c.x) >= Min(draw, Abs(target.x - c.x))
            && Abs(to.y - c.y) >= Min(step - draw, Abs(target.y - c.y))
  {
  }

  /** Moving on an axis twice is moving once. */
  lemma AgainAlong(from: int, target: int, n: nat, m: nat)
    ensures var once := Toward(from, target, Min(n, Abs(from - target)));
            && Toward(once, target, Min(m, Abs(once - target))) == Toward(from, target, Min(n + m, Abs(from - target)))
            && Toward(once, target, 0) == once
  {
  }

  // ---- Needed time -------------------------------------------------------------------

  /** Ticks needed for distance d at speed s, rounded up. */
  function NeededTime(d: nat, s: nat): (t: nat)
    requires s > 0
  {
    d / s + if d % s > 0 then 1 else 0
  }

  /** The needed time is the least number of ticks whose moves cover the distance. */
  lemma NeededTimeIsLeast(d: nat, s: nat, k: nat)
    requires s > 0
    ensures NeededTime(d, s) <= k <==> d <= k * s
  {
    var q, r := d / s, d % s;
    QuotientAndRest(d, s);
    if k <= q {
      assert (q - k) * s >= 0;
      assert q * s == k * s + (q - k) * s;
      if k < q {
        assert (q - k) * s >= s by { MulAtLeast(q - k, s); }
      }
    } else {
      MulAtLeast(k - q, s);
      assert k * s == q * s + (k - q) * s;
    }
  }

  lemma QuotientAndRest(d: nat, s: nat)
    requires s > 0
    ensures d == d / s * s + d % s && 0 <= d % s < s
  {
  }

  lemma MulAtLeast(n: int, s: nat)
    requires n >= 1
    ensures n * s >= s
  {
    assert n * s == s + (n - 1) * s;
    assert (n - 1) * s >= 0;
  }

  /** One more tick covers exactly one more unit of speed. */
  lemma NeededTimeShift(d: nat, s: nat, k: nat)
    requires s > 0
    ensures NeededTime(d + k * s, s) == NeededTime(d, s) + k
  {
    var t := NeededTime(d, s);
    NeededTimeIsLeast(d, s, t);
    NeededTimeIsLeast(d + k * s, s, t + k);
    assert (t + k) * s == t * s + k * s;
    if t + k > 0 {
      if t > 0 {
        NeededTimeIsLeast(d, s, t - 1);
        NeededTimeIsLeast(d + k * s, s, t + k - 1);
        assert (t + k - 1) * s == (t - 1) * s + k * s;
      } else {
        NeededTimeIsLeast(d + k * s, s, k - 1);
        assert (k - 1) * s == k * s - s;
      }
    }
  }

  // ---- Walks -------------------------------------------------------------------------

  predicate DrawsIn(draws: seq<nat>, step: nat) {
    forall i | 0 <= i < |draws| :: draws[i] <= step
  }

  /** The position after one move per draw. */
  function Walk(c: Coord, target: Coord, step: nat, draws: seq<nat>): Coord
    requires DrawsIn(draws, step)
    decreases |draws|
  {
    if draws == [] then c
    else Walk(Advance(c, target, step, draws[0]), target, step, draws[1..])
  }

  /** The length of the path walked. */
  function PathLength(c: Coord, target: Coord, step: nat, draws: seq<nat>): nat
    requires DrawsIn(draws, step)
    decreases |draws|
  {
    if draws == [] then 0
    else
      var next := Advance(c, target, step, draws[0]);
      Dist(c, next) + PathLength(next, target, step, draws[1..])
  }

  lemma RectSplit(p: Coord, a: Coord, b: Coord)
    requires InRect(p, a, b)
    ensures Dist(a, p) + Dist(p, b) == Dist(a, b)
  {
  }

  lemma RectNested(p: Coord, q: Coord, a: Coord, b: Coord)
    requires InRect(q, a, b) && InRect(p, q, b)
    ensures InRect(p, a, b)
  {
  }

  lemma OneMove(d: nat, step: nat, n: nat)
    requires n > 0
    ensures Max(0, d - Min(step, d) - (n - 1) * step) == Max(0, d - n * step)
    ensures Min(step, d) + Min(d - Min(step, d), (n - 1) * step) == Min(d, n * step)
  {
    var rest := (n - 1) * step;
    assert n * step == step + rest && rest >= 0;
  }

  lemma {:induction false} WalkDistances(c: Coord, target: Coord, step: nat, draws: seq<nat>)
    requires DrawsIn(draws, step)
    ensures Dist(Walk(c, target, step, draws), target) == Max(0, Dist(c, target) - |draws| * step)
    ensures PathLength(c, target, step, draws) == Min(Dist(c, target), |draws| * step)
    decreases |draws|
  {
    if draws != [] {
      var next, tail := Advance(c, target, step, draws[0]), draws[1..];
      WalkDistances(next, target, step, tail);
      OneMove(Dist(c, target), step, |draws|);
      assert |tail| == |draws| - 1;
    }
  }

  lemma {:induction false} WalkStaysInRect(c: Coord, target: Coord, step: nat, draws: seq<nat>)
    requires DrawsIn(draws, step)
    ensures InRect(Walk(c, target, step, draws), c, target)
    decreases |draws|
  {
    if draws != [] {
      var next := Advance(c, target, step, draws[0]);
      WalkStaysInRect(next, target, step, draws[1..]);
      RectNested(Walk(c, target, step, draws), next, c, target);
    }
  }

  /** Whatever the draws, a walk loses exactly `step` of its distance per move until it
      arrives, never leaves the rectangle, and never walks a unit it does not need. */
  lemma WalkExact(c: Coord, target: Coord, step: nat, draws: seq<nat>)
    requires DrawsIn(draws, step)
    ensures Dist(Walk(c, target, step, draws), target) == Max(0, Dist(c, target) - |draws| * step)
    ensures PathLength(c, target, step, draws) == Min(Dist(c, target), |draws| * step)
    ensures Dist(c, Walk(c, target, step, draws)) == Min(Dist(c, target), |draws| * step)
    ensures InRect(Walk(c, target, step, draws), c, target)
  {
    WalkDistances(c, target, step, draws);
    WalkStaysInRect(c, target, step, draws);
    RectSplit(Walk(c, target, step, draws), c, target);
  }

  /** A walk stands on its target after k moves exactly when k is at least the needed time;
      the path it has then walked is exactly the distance. */
  lemma WalkArrivesExactly(c: Coord, target: Coord, step: nat, draws: seq<nat>)
    requires step > 0 && DrawsIn(draws, step)
    ensures Walk(c, target, step, draws) == target <==> |draws| >= NeededTime(Dist(c, target), step)
    ensures |draws| >= NeededTime(Dist(c, target), step) ==>
              PathLength(c, target, step, draws) == Dist(c, target)
  {
    WalkExact(c, target, step, draws);
    NeededTimeIsLeast(Dist(c, target), step, |draws|);
  }

  /** Walking in two stages is walking in one. */
  lemma {:induction false} WalkConcat(c: Coord, target: Coord, step: nat, a: seq<nat>, b: seq<nat>)
    requires DrawsIn(a, step) && DrawsIn(b, step)
    ensures DrawsIn(a + b, step)
    ensures Walk(c, target, step, a + b) == Walk(Walk(c, target, step, a), target, step, b)
    decreases |a|
  {
    hide Dist, InRect, Advance;
    if a == [] {
      assert a + b == b;
    } else {
      WalkConcat(Advance(c, target, step, a[0]), target, step, a[1..], b);
      assert (a + b)[1..] == a[1..] + b;
    }
  }
}
