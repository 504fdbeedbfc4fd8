/** The server's coupon table and the handlers that fill and use it. Rows are kept in the
    order of their creation, so `ORDER BY created_at` is the order of the sequence. */
module Coupons {
  import opened Grid
  import opened Wrappers
  import opened Fares

  type UserId = nat
  type RideId = nat
  type InvCode = nat

  datatype Code = NewUser | Invited(code: InvCode) | Reward(code: InvCode, stamp: nat)

  datatype Coupon = Coupon(user: UserId, code: Code, discount: nat, usedBy: Option<RideId>)

  datatype User = User(id: UserId, code: InvCode)

  datatype Ride = Ride(id: RideId, user: UserId, pickup: Coord, dest: Coord)

  datatype Tables = Tables(users: seq<User>, coupons: seq<Coupon>, rides: seq<Ride>)

  const INVITATION_LIMIT: nat := 3

  // ---- Queries -----------------------------------------------------------------------

  /** A user's rows, oldest first. */
  function RowsOf(cs: seq<Coupon>, user: UserId): seq<Coupon> {
    if cs == [] then []
    else
      var k := |cs| - 1;
      RowsOf(cs[..k], user) + if cs[k].user == user then [cs[k]] else []
  }

  /** The user's oldest unused row, from position `from` on. */
  function OldestUnused(cs: seq<Coupon>, user: UserId, from: nat := 0): (r: Option<nat>)
    requires from <= |cs|
    ensures r.Some? ==> from <= r.value < |cs| && cs[r.value].user == user && cs[r.value].usedBy.None?
    ensures r.Some? ==> forall i | from <= i < r.value && cs[i].user == user :: cs[i].usedBy.Some?
    ensures r.None? ==> forall i | from <= i < |cs| && cs[i].user == user :: cs[i].usedBy.Some?
    decreases |cs| - from
  {
    if from == |cs| then None
    else if cs[from].user == user && cs[from].usedBy.None? then Some(from)
    else OldestUnused(cs, user, from + 1)
  }

  /** The user's unused first-ride row. */
  function UnusedNewUser(cs: seq<Coupon>, user: UserId, from: nat := 0): (r: Option<nat>)
    requires from <= |cs|
    ensures r.Some? ==> from <= r.value < |cs| && cs[r.value].user == user &&
                        cs[r.value].usedBy.None? && cs[r.value].code == NewUser
    ensures r.None? ==> forall i | from <= i < |cs| && cs[i].user == user && cs[i].code == NewUser ::
                          cs[i].usedBy.Some?
    decreases |cs| - from
  {
    if from == |cs| then None
    else if cs[from].user == user && cs[from].usedBy.None? && cs[from].code == NewUser then Some(from)
    else UnusedNewUser(cs, user, from + 1)
  }

  /** First the first-ride coupon, then the oldest. */
  function Preferred(cs: seq<Coupon>, user: UserId): Option<nat> {
    if UnusedNewUser(cs, user).Some? then UnusedNewUser(cs, user) else OldestUnused(cs, user)
  }

  /** The discount of the row that carries the ride's id, zero without one. */
  function DiscountOf(cs: seq<Coupon>, ride: RideId): nat {
    if cs == [] then 0
    else if cs[|cs| - 1].usedBy == Some(ride) then cs[|cs| - 1].discount
    else DiscountOf(cs[..|cs| - 1], ride)
  }

  /** `UPDATE coupons SET used_by = ride WHERE user_id = user AND code = code`. */
  function MarkUsed(cs: seq<Coupon>, user: UserId, code: Code, ride: RideId): seq<Coupon> {
    seq(|cs|, i requires 0 <= i < |cs| =>
      if cs[i].user == user && cs[i].code == code then cs[i].(usedBy := Some(ride)) else cs[i])
  }

  function InvCount(cs: seq<Coupon>, code: InvCode): nat {
    if cs == [] then 0
    else InvCount(cs[..|cs| - 1], code) + if cs[|cs| - 1].code == Invited(code) then 1 else 0
  }

  function RewardCount(cs: seq<Coupon>, code: InvCode): nat {
    if cs == [] then 0
    else
      var c := cs[|cs| - 1].code;
      RewardCount(cs[..|cs| - 1], code) + if c.Reward? && c.code == code then 1 else 0
  }

  function RideCount(rides: seq<Ride>, user: UserId): nat {
    if rides == [] then 0
    else RideCount(rides[..|rides| - 1], user) + if rides[|rides| - 1].user == user then 1 else 0
  }

  function Owner(users: seq<User>, code: InvCode): Option<UserId> {
    if users == [] then None
    else if users[0].code == code then Some(users[0].id)
    else Owner(users[1..], code)
  }

  // ---- Transactions ------------------------------------------------------------------

  /** Registration; `None` when it is refused and rolled back. */
  function Registered(t: Tables, user: UserId, code: InvCode, invitation: Option<InvCode>, stamp: nat)
    : Option<Tables>
  {
    var users := t.users + [User(user, code)];
    var cs := t.coupons + [Coupon(user, NewUser, 3000, None)];
    if invitation.None? then Some(t.(users := users, coupons := cs))
    else if InvCount(cs, invitation.value) >= INVITATION_LIMIT then None
    else if Owner(users, invitation.value).None? then None
    else
      Some(t.(users := users, coupons := cs + [
        Coupon(user, Invited(invitation.value), 1500, None),
        Coupon(Owner(users, invitation.value).value, Reward(invitation.value, stamp), 1000, None)]))
  }

  /** Which row a new ride of the user takes. */
  function Taken(t: Tables, user: UserId): Option<nat> {
    if RideCount(t.rides, user) == 0 then Preferred(t.coupons, user) else OldestUnused(t.coupons, user)
  }

  function WithRide(t: Tables, ride: Ride): Tables {
    var taken := Taken(t, ride.user);
    t.(rides := t.rides + [ride],
       coupons := if taken.None? then t.coupons
                  else MarkUsed(t.coupons, ride.user, t.coupons[taken.value].code, ride.id))
  }

  /** The fare of an existing ride: at creation, in notifications, charged, in the history. */
  function RideFare(t: Tables, ride: Ride): nat {
    DiscountedFare(ride.pickup, ride.dest, DiscountOf(t.coupons, ride.id))
  }

  /** The fare of a ride that does not exist yet. */
  function EstimatedFare(t: Tables, user: UserId, pickup: Coord, dest: Coord): nat {
    var p := Preferred(t.coupons, user);
    DiscountedFare(pickup, dest, if p.Some? then t.coupons[p.value].discount else 0)
  }

  // ---- The handlers ------------------------------------------------------------------

  class CouponDb {
    var users: seq<User>
    var coupons: seq<Coupon>
    var rides: seq<Ride>

    ghost function View(): Tables
      reads this
    {
      Tables(users, coupons, rides)
    }

    constructor ()
      ensures View() == Tables([], [], [])
    {
      users, coupons, rides := [], [], [];
    }

    /** `appPostUsers`. The rows written before a refusal are rolled back. */
    method PostUsers(user: UserId, code: InvCode, invitation: Option<InvCode>, stamp: nat) returns (ok: bool)
      modifies this
      ensures ok == Registered(old(View()), user, code, invitation, stamp).Some?
      ensures View() == if ok then Registered(old(View()), user, code, invitation, stamp).value else old(View())
    {
      var before, beforeUsers := coupons, users;
      users := users + [User(user, code)];
      coupons := coupons + [Coupon(user, NewUser, 3000, None)];
      if invitation.Some? {
        if InvCount(coupons, invitation.value) >= INVITATION_LIMIT {
          users, coupons := beforeUsers, before;
          return false;
        }
        var inviter := Owner(users, invitation.value);
        if inviter.None? {
          users, coupons := beforeUsers, before;
          return false;
        }
        coupons := coupons + [Coupon(user, Invited(invitation.value), 1500, None)];
        coupons := coupons + [Coupon(inviter.value, Reward(invitation.value, stamp), 1000, None)];
        assert coupons == before + [Coupon(user, NewUser, 3000, None)] + [
          Coupon(user, Invited(invitation.value), 1500, None),
          Coupon(inviter.value, Reward(invitation.value, stamp), 1000, None)];
      }
      return true;
    }

    /** The coupon part of `appPostRides`. */
    method PostRides(ride: Ride) returns (fare: nat)
      modifies this
      ensures View() == WithRide(old(View()), ride)
      ensures fare == RideFare(View(), ride)
    {
      RideCountAppend(rides, ride, ride.user);
      rides := rides + [ride];
      var rideCount := RideCount(rides, ride.user);
      if rideCount == 1 {
        var coupon := UnusedNewUser(coupons, ride.user);
        if coupon.None? {
          coupon := OldestUnused(coupons, ride.user);
          if coupon.Some? {
            coupons := MarkUsed(coupons, ride.user, coupons[coupon.value].code, ride.id);
          }
        } else {
          coupons := MarkUsed(coupons, ride.user, NewUser, ride.id);
        }
      } else {
        var coupon := OldestUnused(coupons, ride.user);
        if coupon.Some? {
          coupons := MarkUsed(coupons, ride.user, coupons[coupon.value].code, ride.id);
        }
      }
      fare := CalculateDiscountedFare(ride.user, Some(ride), ride.pickup, ride.dest);
    }

    method CalculateDiscountedFare(user: UserId, ride: Option<Ride>, pickup: Coord, dest: Coord)
      returns (fare: nat)
      ensures ride.Some? ==> fare == RideFare(View(), ride.value)
      ensures ride.None? ==> fare == EstimatedFare(View(), user, pickup, dest)
    {
      var p, d, discount := pickup, dest, 0;
      if ride.Some? {
        p, d := ride.value.pickup, ride.value.dest;
        discount := DiscountOf(coupons, ride.value.id);
      } else {
        var coupon := UnusedNewUser(coupons, user);
        if coupon.None? {
          coupon := OldestUnused(coupons, user);
          if coupon.Some? {
            discount := coupons[coupon.value].discount;
          }
        } else {
          discount := coupons[coupon.value].discount;
        }
      }
      var meteredFare := FARE_PER_DISTANCE * Dist(p, d);
      fare := INITIAL_FARE + Max(meteredFare - discount, 0);
    }

    /** `appPostRidesEstimatedFare`. */
    method PostRidesEstimatedFare(user: UserId, pickup: Coord, dest: Coord) returns (fare: nat, discount: int)
      ensures fare == EstimatedFare(View(), user, pickup, dest)
      ensures discount == CalculateFare(pickup, dest) - fare
    {
      fare := CalculateDiscountedFare(user, None, pickup, dest);
      discount := CalculateFare(pickup, dest) - fare;
    }
  }

  // ---- What a registration does ------------------------------------------------------

  /** The count is the number of rows. */
  lemma {:induction false} InvCountIs(cs: seq<Coupon>, code: InvCode)
    ensures InvCount(cs, code) == |set i | 0 <= i < |cs| && cs[i].code == Invited(code)|
    decreases |cs|
  {
    if cs != [] {
      var n := |cs| - 1;
      InvCountIs(cs[..n], code);
      var before, after := set i | 0 <= i < n && cs[..n][i].code == Invited(code),
                           set i | 0 <= i < |cs| && cs[i].code == Invited(code);
      assert after == if cs[n].code == Invited(code) then before + {n} else before;
    }
  }

  /** The owner is the first user with the code. */
  lemma {:induction false} OwnerIs(users: seq<User>, code: InvCode)
    ensures Owner(users, code).None? <==> forall i | 0 <= i < |users| :: users[i].code != code
    ensures Owner(users, code).Some? ==>
              exists i | 0 <= i < |users| ::
                users[i] == User(Owner(users, code).value, code) && forall j | 0 <= j < i :: users[j].code != code
    decreases |users|
  {
    if users != [] && users[0].code != code {
      var rest := users[1..];
      OwnerIs(rest, code);
      assert forall i | 0 <= i < |rest| :: rest[i] == users[i + 1];
      assert forall i | 0 < i < |users| :: users[i] == rest[i - 1];
      if Owner(rest, code).Some? {
        var i :| 0 <= i < |rest| && rest[i] == User(Owner(rest, code).value, code) &&
                 forall j | 0 <= j < i :: rest[j].code != code;
        assert users[i + 1] == User(Owner(users, code).value, code);
      }
    }
  }

  /** A registration is refused exactly when it comes with an invitation and three rows stand for
      that invitation already or nobody, not even the new user, owns the code. */
  lemma RegistrationRefusedIff(t: Tables, user: UserId, code: InvCode, invitation: Option<InvCode>, stamp: nat)
    ensures Registered(t, user, code, invitation, stamp).None? <==>
            && invitation.Some?
            && (|set i | 0 <= i < |t.coupons| && t.coupons[i].code == Invited(invitation.value)| >= 3 ||
                (code != invitation.value && forall i | 0 <= i < |t.users| :: t.users[i].code != invitation.value))
  {
    if invitation.Some? {
      var users := t.users + [User(user, code)];
      CountsAppend(t.coupons, Coupon(user, NewUser, 3000, None), invitation.value);
      InvCountIs(t.coupons, invitation.value);
      OwnerIs(users, invitation.value);
      assert users[|t.users|].code == code;
      assert forall i | 0 <= i < |t.users| :: users[i] == t.users[i];
    }
  }

  /** Otherwise the user and 3000 for the first ride are there and, with an invitation, 1500 for
      the invited user and 1000 for a user that owns the code; nothing else changes. */
  lemma RegistrationGrants(t: Tables, user: UserId, code: InvCode, invitation: Option<InvCode>, stamp: nat)
    requires Registered(t, user, code, invitation, stamp).Some?
    ensures var t' := Registered(t, user, code, invitation, stamp).value;
            var n := |t.coupons|;
            && t'.rides == t.rides && t'.users == t.users + [User(user, code)]
            && t.coupons < t'.coupons && t'.coupons[n] == Coupon(user, NewUser, 3000, None)
            && |t'.coupons| == (if invitation.None? then n + 1 else n + 3)
            && (invitation.Some? ==>
                  var reward := t'.coupons[n + 2];
                  && t'.coupons[n + 1] == Coupon(user, Invited(invitation.value), 1500, None)
                  && reward.code == Reward(invitation.value, stamp) && reward.discount == 1000 && reward.usedBy.None?
                  && User(reward.user, invitation.value) in t'.users)
  {
    if invitation.Some? {
      OwnerIs(t.users + [User(user, code)], invitation.value);
    }
  }

  // ---- Which row a ride takes --------------------------------------------------------

  predicate IsUnused(cs: seq<Coupon>, user: UserId, i: nat) {
    i < |cs| && cs[i].user == user && cs[i].usedBy.None?
  }

  /** The preferred row is the unused first-ride row if there is one, and else the oldest unused
      row; there is none if and only if no row of the user is unused. */
  lemma PreferredIs(cs: seq<Coupon>, user: UserId)
    ensures var p := Preferred(cs, user);
            && (p.None? <==> forall i: nat :: !IsUnused(cs, user, i))
            && (p.Some? ==>
                  var k := p.value;
                  && IsUnused(cs, user, k)
                  && (cs[k].code == NewUser <==> exists i: nat :: IsUnused(cs, user, i) && cs[i].code == NewUser)
                  && (cs[k].code != NewUser ==> forall i: nat | i < k :: !IsUnused(cs, user, i)))
  {
    assert Preferred(cs, user).Some? ==> IsUnused(cs, user, Preferred(cs, user).value);
  }

  lemma {:induction false} RideCountIs(rides: seq<Ride>, user: UserId)
    ensures RideCount(rides, user) == 0 <==> forall i | 0 <= i < |rides| :: rides[i].user != user
    decreases |rides|
  {
    if rides != [] {
      RideCountIs(rides[..|rides| - 1], user);
    }
  }

  /** A user's first ride takes the preferred row, every other ride the oldest unused one. */
  lemma TakenIs(t: Tables, user: UserId)
    ensures var first := forall i | 0 <= i < |t.rides| :: t.rides[i].user != user;
            && (Taken(t, user).None? <==> forall i: nat :: !IsUnused(t.coupons, user, i))
            && (Taken(t, user).Some? ==>
                  var k := Taken(t, user).value;
                  && IsUnused(t.coupons, user, k)
                  && (first && (exists i: nat :: IsUnused(t.coupons, user, i) && t.coupons[i].code == NewUser) ==>
                        t.coupons[k].code == NewUser)
                  && (!first || t.coupons[k].code != NewUser ==> forall i: nat | i < k :: !IsUnused(t.coupons, user, i)))
  {
    RideCountIs(t.rides, user);
    PreferredIs(t.coupons, user);
  }

  // ---- Facts about the queries -------------------------------------------------------

  lemma RideCountAppend(rides: seq<Ride>, r: Ride, user: UserId)
    ensures RideCount(rides + [r], user) == RideCount(rides, user) + if r.user == user then 1 else 0
  {
    assert (rides + [r])[..|rides|] == rides;
  }

  lemma {:induction false} RowsConcat(a: seq<Coupon>, b: seq<Coupon>, user: UserId)
    ensures RowsOf(a + b, user) == RowsOf(a, user) + RowsOf(b, user)
    decreases |b|
  {
    if b == [] {
      assert a + b == a;
    } else {
      var k := |b| - 1;
      assert (a + b)[..|a + b| - 1] == a + b[..k];
      RowsConcat(a, b[..k], user);
    }
  }

  lemma RowsAppend(cs: seq<Coupon>, c: Coupon, user: UserId)
    ensures RowsOf(cs + [c], user) == RowsOf(cs, user) + if c.user == user then [c] else []
  {
    assert (cs + [c])[..|cs|] == cs;
  }

  /** Position k of the table splits a user's rows. */
  lemma RowsSplit(cs: seq<Coupon>, k: nat, user: UserId)
    requires k < |cs|
    ensures RowsOf(cs, user) ==
            RowsOf(cs[..k], user) + (if cs[k].user == user then [cs[k]] else []) + RowsOf(cs[k + 1..], user)
  {
    assert cs == cs[..k] + [cs[k]] + cs[k + 1..];
    RowsConcat(cs[..k] + [cs[k]], cs[k + 1..], user);
    RowsAppend(cs[..k], cs[k], user);
  }

  lemma {:induction false} RowsAreRows(cs: seq<Coupon>, user: UserId)
    ensures forall i | 0 <= i < |RowsOf(cs, user)| :: RowsOf(cs, user)[i] in cs && RowsOf(cs, user)[i].user == user
    ensures forall i | 0 <= i < |cs| && cs[i].user == user :: cs[i] in RowsOf(cs, user)
    decreases |cs|
  {
    if cs != [] {
      RowsAreRows(cs[..|cs| - 1], user);
    }
  }

  /** No user has two rows with the same code: the primary key. */
  ghost predicate UniqueCodes(cs: seq<Coupon>) {
    forall i, j | 0 <= i < j < |cs| :: cs[i].user != cs[j].user || cs[i].code != cs[j].code
  }

  lemma MarkOne(cs: seq<Coupon>, k: nat, ride: RideId)
    requires UniqueCodes(cs) && k < |cs|
    ensures MarkUsed(cs, cs[k].user, cs[k].code, ride) == cs[k := cs[k].(usedBy := Some(ride))]
  {
  }

  /** No ride is in two rows. */
  ghost predicate UsedOnce(cs: seq<Coupon>) {
    forall i, j | 0 <= i < j < |cs| && cs[i].usedBy.Some? :: cs[i].usedBy != cs[j].usedBy
  }

  lemma {:induction false} DiscountOfRow(cs: seq<Coupon>, k: nat, ride: RideId)
    requires UsedOnce(cs) && k < |cs| && cs[k].usedBy == Some(ride)
    ensures DiscountOf(cs, ride) == cs[k].discount
    decreases |cs|
  {
    if k < |cs| - 1 {
      DiscountOfRow(cs[..|cs| - 1], k, ride);
    }
  }

  lemma {:induction false} DiscountOfNone(cs: seq<Coupon>, ride: RideId)
    requires forall i | 0 <= i < |cs| :: cs[i].usedBy != Some(ride)
    ensures DiscountOf(cs, ride) == 0
    decreases |cs|
  {
    if cs != [] {
      DiscountOfNone(cs[..|cs| - 1], ride);
    }
  }

  /** Rewriting a row that another ride does not use leaves that ride's discount alone. */
  lemma {:induction false} DiscountOfOther(cs: seq<Coupon>, k: nat, c: Coupon, ride: RideId)
    requires k < |cs| && cs[k].usedBy != Some(ride) && c.usedBy != Some(ride)
    ensures DiscountOf(cs[k := c], ride) == DiscountOf(cs, ride)
    decreases |cs|
  {
    var n := |cs| - 1;
    if k < n {
      assert cs[k := c][..n] == cs[..n][k := c];
      DiscountOfOther(cs[..n], k, c, ride);
    } else {
      assert cs[k := c][..n] == cs[..n];
    }
  }

  lemma DiscountOfAppend(cs: seq<Coupon>, c: Coupon, ride: RideId)
    requires c.usedBy.None?
    ensures DiscountOf(cs + [c], ride) == DiscountOf(cs, ride)
  {
    assert (cs + [c])[..|cs|] == cs;
  }

  lemma CountsAppend(cs: seq<Coupon>, c: Coupon, code: InvCode)
    ensures InvCount(cs + [c], code) == InvCount(cs, code) + if c.code == Invited(code) then 1 else 0
    ensures RewardCount(cs + [c], code) ==
            RewardCount(cs, code) + if c.code.Reward? && c.code.code == code then 1 else 0
  {
    assert (cs + [c])[..|cs|] == cs;
  }

  lemma {:induction false} CountsIgnoreUse(cs: seq<Coupon>, k: nat, used: Option<RideId>, code: InvCode)
    requires k < |cs|
    ensures InvCount(cs[k := cs[k].(usedBy := used)], code) == InvCount(cs, code)
    ensures RewardCount(cs[k := cs[k].(usedBy := used)], code) == RewardCount(cs, code)
    decreases |cs|
  {
    var n := |cs| - 1;
    var changed := cs[k := cs[k].(usedBy := used)];
    if k < n {
      assert changed[..n] == cs[..n][k := cs[..n][k].(usedBy := used)];
      CountsIgnoreUse(cs[..n], k, used, code);
    } else {
      assert changed[..n] == cs[..n];
    }
  }
}
