/** planGuestTargets of lib/guestmemory/planner.go: a total reclaim is split over the VMs
    in proportion to their headroom by integer division, and the remainder is handed out
    in order. The product of two int64 numbers is not range-checked in the source, so it
    is taken modulo 2^64 here; all other sums are taken as mathematical integers. */
module BalloonPlanner {
  const U64: int := 0x1_0000_0000_0000_0000
  const I63: int := 0x8000_0000_0000_0000

  /** The int64 value with the same low 64 bits. */
  function Int64(n: int): int {
    var m := n % U64;
    if m < I63 then m else m - U64
  }

  /** Go's division of a possibly negative number by a positive one. */
  function Quotient(n: int, d: int): int
    requires d > 0
  {
    if n >= 0 then n / d else -((-n) / d)
  }

  function Min(a: int, b: int): int { if a < b then a else b }

  function Max(a: int, b: int): int { if a > b then a else b }

  function Clamp(v: int, lo: int, hi: int): int {
    if v < lo then lo else if v > hi then hi else v
  }

  datatype Candidate = Candidate(id: string, size: int, headroom: nat)

  ghost predicate DistinctIDs(cs: seq<Candidate>) {
    forall i, j :: 0 <= i < j < |cs| ==> cs[i].id != cs[j].id
  }

  /** The headroom of the first `n` candidates. */
  function Headroom(cs: seq<Candidate>, n: nat): nat
    requires n <= |cs|
  {
    if n == 0 then 0 else Headroom(cs, n - 1) + cs[n - 1].headroom
  }

  /** A candidate's proportional share as the source computes it. */
  function Share(c: Candidate, total: int, headroom: int): int
    requires headroom > 0
  {
    Min(Quotient(Int64(total * c.headroom), headroom), c.headroom)
  }

  /** The sum of the first `n` shares. */
  function Shares(cs: seq<Candidate>, total: int, headroom: int, n: nat): int
    requires n <= |cs| && headroom > 0
  {
    if n == 0 then 0 else Shares(cs, total, headroom, n - 1) + Share(cs[n - 1], total, headroom)
  }

  /** What the repair loop adds to a candidate with share `w` when `r` remains. */
  function Extra(c: Candidate, w: int, r: int): int {
    if r <= 0 || c.headroom - w <= 0 then 0 else Min(c.headroom - w, r)
  }

  /** What remains to be handed out when the repair loop reaches candidate `n`. */
  function Remaining(cs: seq<Candidate>, total: int, headroom: int, n: nat): int
    requires n <= |cs| && headroom > 0
  {
    if n == 0 then total - Shares(cs, total, headroom, |cs|)
    else
      var r := Remaining(cs, total, headroom, n - 1);
      r - Extra(cs[n - 1], Share(cs[n - 1], total, headroom), r)
  }

  /** The reclaim planned for candidate `i`. */
  function Planned(cs: seq<Candidate>, totalReclaim: int, i: nat): int
    requires i < |cs|
  {
    var headroom := Headroom(cs, |cs|);
    var total := Clamp(totalReclaim, 0, headroom);
    if headroom == 0 || total == 0 then 0
    else
      var w := Share(cs[i], total, headroom);
      w + Extra(cs[i], w, Remaining(cs, total, headroom, i))
  }

  function PlannedSum(cs: seq<Candidate>, totalReclaim: int, n: nat): int
    requires n <= |cs|
  {
    if n == 0 then 0 else PlannedSum(cs, totalReclaim, n - 1) + Planned(cs, totalReclaim, n - 1)
  }

  /** What the plan promises: each VM gives up no more than its headroom and never gains,
      and together they give up the clamped total. */
  ghost predicate Exact(cs: seq<Candidate>, totalReclaim: int) {
    && (forall i :: 0 <= i < |cs| ==> 0 <= Planned(cs, totalReclaim, i) <= cs[i].headroom)
    && PlannedSum(cs, totalReclaim, |cs|) == Clamp(totalReclaim, 0, Headroom(cs, |cs|))
  }

  /* ---- the repair loop in closed form ---- */

  /** Unused headroom of the first `n` candidates after the proportional shares. */
  function Room(cs: seq<Candidate>, total: int, headroom: int, n: nat): int
    requires n <= |cs| && headroom > 0
  {
    Headroom(cs, n) - Shares(cs, total, headroom, n)
  }

  lemma {:induction false} RoomGrows(cs: seq<Candidate>, total: int, headroom: int, m: nat, n: nat)
    requires m <= n <= |cs| && headroom > 0
    ensures Room(cs, total, headroom, m) <= Room(cs, total, headroom, n)
    decreases n - m
  {
    if m < n {
      RoomGrows(cs, total, headroom, m, n - 1);
    }
  }

  lemma {:induction false} RemainingClosed(cs: seq<Candidate>, total: int, headroom: int, n: nat)
    requires n <= |cs| && headroom > 0
    ensures var r := total - Shares(cs, total, headroom, |cs|);
      Remaining(cs, total, headroom, n) == if r <= 0 then r else Max(0, r - Room(cs, total, headroom, n))
    decreases n
  {
    if n > 0 {
      RemainingClosed(cs, total, headroom, n - 1);
      RoomGrows(cs, total, headroom, n - 1, n);
    } else {
      assert Room(cs, total, headroom, 0) == 0;
    }
  }

  /** Everything handed out so far is the shares plus what has left the remainder. */
  lemma {:induction false} PlannedSumClosed(cs: seq<Candidate>, totalReclaim: int, n: nat)
    requires n <= |cs|
    ensures var headroom := Headroom(cs, |cs|);
      var total := Clamp(totalReclaim, 0, headroom);
      headroom > 0 && total > 0 ==>
        PlannedSum(cs, totalReclaim, n) ==
        Shares(cs, total, headroom, n) + Remaining(cs, total, headroom, 0) - Remaining(cs, total, headroom, n)
    ensures Headroom(cs, |cs|) == 0 || totalReclaim <= 0 ==> PlannedSum(cs, totalReclaim, n) == 0
    decreases n
  {
    if n > 0 {
      PlannedSumClosed(cs, totalReclaim, n - 1);
    }
  }

  /** The exact condition on the shares: together they do not exceed the total, and what
      the repair loop has left on reaching a negative share makes up for it. */
  ghost predicate SharesAdmissible(cs: seq<Candidate>, total: int, headroom: int)
    requires headroom > 0
  {
    && Shares(cs, total, headroom, |cs|) <= total
    && forall i :: 0 <= i < |cs| ==>
         Share(cs[i], total, headroom) >= 0 ||
         Share(cs[i], total, headroom) + total - Shares(cs, total, headroom, |cs|) - Room(cs, total, headroom, i) >= 0
  }

  /** Candidate `i` gains nothing exactly when its share is no loss or what the repair
      loop has left on reaching it covers the loss. */
  lemma NoGain(cs: seq<Candidate>, totalReclaim: int, i: nat)
    requires i < |cs|
    requires Headroom(cs, |cs|) > 0 && totalReclaim > 0
    ensures var headroom := Headroom(cs, |cs|);
      var total := Clamp(totalReclaim, 0, headroom);
      var w := Share(cs[i], total, headroom);
      var left := total - Shares(cs, total, headroom, |cs|);
      left >= 0 ==> (0 <= Planned(cs, totalReclaim, i) <==>
                     (w >= 0 || w + left - Room(cs, total, headroom, i) >= 0))
    ensures Planned(cs, totalReclaim, i) <= cs[i].headroom
  {
    var headroom := Headroom(cs, |cs|);
    var total := Clamp(totalReclaim, 0, headroom);
    RemainingClosed(cs, total, headroom, i);
    RoomGrows(cs, total, headroom, 0, i);
  }

  /** The sum is exact exactly when the shares do not already exceed the total. */
  lemma SumExactIff(cs: seq<Candidate>, totalReclaim: int)
    requires Headroom(cs, |cs|) > 0 && totalReclaim > 0
    ensures var headroom := Headroom(cs, |cs|);
      var total := Clamp(totalReclaim, 0, headroom);
      PlannedSum(cs, totalReclaim, |cs|) == total <==> Shares(cs, total, headroom, |cs|) <= total
  {
    hide Share, Planned, PlannedSum, Extra;
    var headroom := Headroom(cs, |cs|);
    var total := Clamp(totalReclaim, 0, headroom);
    PlannedSumClosed(cs, totalReclaim, |cs|);
    RemainingClosed(cs, total, headroom, |cs|);
    RoomGrows(cs, total, headroom, 0, |cs|);
  }

  /** The plan is exact if and only if the shares are admissible: the condition reads only
      the arguments, before any repair. It can fail because the product wraps. */
  lemma ExactIff(cs: seq<Candidate>, totalReclaim: int)
    ensures var headroom := Headroom(cs, |cs|);
      Exact(cs, totalReclaim) <==>
      (headroom == 0 || totalReclaim <= 0 ||
       SharesAdmissible(cs, Clamp(totalReclaim, 0, headroom), headroom))
  {
    hide Share, Shares, Room, PlannedSum;
    var headroom := Headroom(cs, |cs|);
    var total := Clamp(totalReclaim, 0, headroom);
    PlannedSumClosed(cs, totalReclaim, |cs|);
    if headroom > 0 && totalReclaim > 0 {
      hide Planned, Headroom;
      SumExactIff(cs, totalReclaim);
      forall i | 0 <= i < |cs|
        ensures var w := Share(cs[i], total, headroom);
          var left := total - Shares(cs, total, headroom, |cs|);
          left >= 0 ==> (0 <= Planned(cs, totalReclaim, i) <==>
                         (w >= 0 || w + left - Room(cs, total, headroom, i) >= 0))
        ensures Planned(cs, totalReclaim, i) <= cs[i].headroom
      {
        NoGain(cs, totalReclaim, i);
      }
    }
  }

  /* ---- no product overflows: the plan is exact ---- */

  /** The bound the source leaves to its callers. */
  ghost predicate Fits(cs: seq<Candidate>, total: int) {
    forall i :: 0 <= i < |cs| ==> total * cs[i].headroom < I63
  }

  lemma Distribute(a: int, b: int, c: int)
    ensures a * (b + c) == a * b + a * c
  {}

  lemma Scale(a: int, b: int, h: int)
    requires a <= b && 0 <= h
    ensures h * a <= h * b
  {}

  lemma Unscale(a: int, b: int, h: int)
    requires h * a <= b * h && 0 < h
    ensures a <= b
  {
    if a > b {
      Scale(b + 1, a, h);
      Distribute(h, b, 1);
      assert false;
    }
  }

  lemma FloorDivision(p: int, h: int)
    requires 0 <= p && 0 < h
    ensures 0 <= p / h && h * (p / h) <= p
  {}

  lemma ShareIsFloor(c: Candidate, total: int, headroom: int)
    requires 0 <= total <= headroom && 0 < headroom && total * c.headroom < I63
    ensures 0 <= Share(c, total, headroom) <= c.headroom
    ensures headroom * Share(c, total, headroom) <= total * c.headroom
  {
    var p := total * c.headroom;
    assert 0 <= p;
    assert Int64(p) == p;
    FloorDivision(p, headroom);
    if p / headroom < c.headroom {
      assert Share(c, total, headroom) == p / headroom;
    } else {
      assert Share(c, total, headroom) == c.headroom;
      Scale(c.headroom, p / headroom, headroom);
    }
  }

  lemma {:induction false} SharesFloor(cs: seq<Candidate>, total: int, headroom: int, n: nat)
    requires n <= |cs| && 0 <= total <= headroom && 0 < headroom && Fits(cs, total)
    ensures headroom * Shares(cs, total, headroom, n) <= total * Headroom(cs, n)
  {
    if n > 0 {
      SharesFloor(cs, total, headroom, n - 1);
      ShareIsFloor(cs[n - 1], total, headroom);
      Distribute(headroom, Shares(cs, total, headroom, n - 1), Share(cs[n - 1], total, headroom));
      Distribute(total, Headroom(cs, n - 1), cs[n - 1].headroom);
    }
  }

  /** When no product overflows, the reclaims are between zero and the headroom and add up
      to the clamped total. */
  lemma PlanIsExact(cs: seq<Candidate>, totalReclaim: int)
    requires Fits(cs, Clamp(totalReclaim, 0, Headroom(cs, |cs|)))
    ensures Exact(cs, totalReclaim)
  {
    var headroom := Headroom(cs, |cs|);
    var total := Clamp(totalReclaim, 0, headroom);
    hide Exact, Share, Shares, Headroom;
    ExactIff(cs, totalReclaim);
    if headroom > 0 && totalReclaim > 0 {
      SharesFloor(cs, total, headroom, |cs|);
      Unscale(Shares(cs, total, headroom, |cs|), total, headroom);
      forall i | 0 <= i < |cs|
        ensures Share(cs[i], total, headroom) >= 0
      {
        ShareIsFloor(cs[i], total, headroom);
      }
    }
  }

  lemma SmallProduct(a: int, b: int)
    requires 0 <= a <= 3037000499 && 0 <= b <= 3037000499
    ensures a * b < I63
  {
    Scale(a, 3037000499, b);
    assert b * 3037000499 <= 3037000499 * 3037000499;
  }

  /** Below 2^31.5 bytes of headroom in all (about 2.8 GiB) nothing can overflow. */
  lemma SmallHostsFit(cs: seq<Candidate>, totalReclaim: int)
    requires Headroom(cs, |cs|) <= 3037000499
    ensures Exact(cs, totalReclaim)
  {
    hide Exact, Headroom;
    var headroom := Headroom(cs, |cs|);
    var total := Clamp(totalReclaim, 0, headroom);
    forall i | 0 <= i < |cs|
      ensures total * cs[i].headroom < I63
    {
      HeadroomHolds(cs, i, |cs|);
      SmallProduct(total, cs[i].headroom);
    }
    PlanIsExact(cs, totalReclaim);
  }

  lemma {:induction false} HeadroomHolds(cs: seq<Candidate>, i: nat, n: nat)
    requires i < n <= |cs|
    ensures cs[i].headroom <= Headroom(cs, n)
  {
    if i + 1 < n {
      HeadroomHolds(cs, i, n - 1);
    }
  }

  /** Three VMs of 3 GiB headroom and a request for 3 GiB: each product wraps to a negative
      number, the repair loop gives the first VM all of its headroom, part to the second,
      and the third VM is planned more memory than it was assigned. */
  lemma ProductOverflowBreaksThePlan(size: int)
    ensures var gib3 := 3221225472;
      var cs := [Candidate("a", size, gib3), Candidate("b", size, gib3), Candidate("c", size, gib3)];
      !Exact(cs, gib3) && Planned(cs, gib3, 2) < 0
  {
    var gib3 := 3221225472;
    var cs := [Candidate("a", size, gib3), Candidate("b", size, gib3), Candidate("c", size, gib3)];
    assert Headroom(cs, 3) == 9663676416 by {
      assert Headroom(cs, 1) == gib3;
      assert Headroom(cs, 2) == 2 * gib3;
    }
    var w := Share(cs[0], gib3, 9663676416);
    assert w == -835132529 by {
      assert Int64(10376293541461622784) == -8070450532247928832;
    }
    assert Shares(cs, gib3, 9663676416, 3) == 3 * w by {
      assert Shares(cs, gib3, 9663676416, 1) == w;
      assert Shares(cs, gib3, 9663676416, 2) == 2 * w;
    }
    assert Remaining(cs, gib3, 9663676416, 1) == gib3 - 3 * w - (gib3 - w);
    assert Remaining(cs, gib3, 9663676416, 2) == 0;
  }

  /* ---- the loops ---- */

  lemma {:induction false} NothingLeft(cs: seq<Candidate>, total: int, headroom: int, i: nat, j: nat)
    requires i <= j <= |cs| && headroom > 0
    requires Remaining(cs, total, headroom, i) <= 0
    ensures Remaining(cs, total, headroom, j) <= 0
    decreases j - i
  {
    if i < j {
      NothingLeft(cs, total, headroom, i, j - 1);
    }
  }

  lemma PlannedAt(cs: seq<Candidate>, totalReclaim: int, headroom: int, total: int, i: nat)
    requires i < |cs| && headroom == Headroom(cs, |cs|) && headroom > 0
    requires total == Clamp(totalReclaim, 0, headroom) && total > 0
    ensures var w := Share(cs[i], total, headroom);
      Planned(cs, totalReclaim, i) == w + Extra(cs[i], w, Remaining(cs, total, headroom, i))
  {}

  /** Once nothing remains, the other VMs keep their shares. */
  lemma SharesStand(cs: seq<Candidate>, totalReclaim: int, headroom: int, total: int, i: nat)
    requires i <= |cs| && headroom == Headroom(cs, |cs|) && headroom > 0
    requires total == Clamp(totalReclaim, 0, headroom) && total > 0
    requires Remaining(cs, total, headroom, i) <= 0
    ensures forall j :: i <= j < |cs| ==> Planned(cs, totalReclaim, j) == Share(cs[j], total, headroom)
  {
    forall j | i <= j < |cs|
      ensures Planned(cs, totalReclaim, j) == Share(cs[j], total, headroom)
    {
      NothingLeft(cs, total, headroom, i, j);
      PlannedAt(cs, totalReclaim, headroom, total, j);
    }
  }

  /** The proportional shares. */
  method ShareOut(cs: seq<Candidate>, sizes: map<string, int>, headroom: int, total: int)
    returns (targets: map<string, int>, remainder: int)
    requires headroom > 0
    requires forall c :: c in cs ==> c.id in sizes
    ensures targets.Keys == sizes.Keys
    ensures remainder == Remaining(cs, total, headroom, 0)
    ensures DistinctIDs(cs) ==>
      forall i :: 0 <= i < |cs| ==> targets[cs[i].id] == cs[i].size - Share(cs[i], total, headroom)
  {
    hide Int64, Quotient;
    targets, remainder := sizes, total;
    for i := 0 to |cs|
      invariant remainder == total - Shares(cs, total, headroom, i)
      invariant targets.Keys == sizes.Keys
      invariant DistinctIDs(cs) ==> forall j :: 0 <= j < i ==>
        targets[cs[j].id] == cs[j].size - Share(cs[j], total, headroom)
    {
      var reclaim := Quotient(Int64(total * cs[i].headroom), headroom);
      if reclaim > cs[i].headroom {
        reclaim := cs[i].headroom;
      }
      targets := targets[cs[i].id := cs[i].size - reclaim];
      remainder := remainder - reclaim;
    }
  }

  /** The repair loop: what integer division left over goes to the VMs in order. */
  method HandOut(cs: seq<Candidate>, totalReclaim: int, shared: map<string, int>, headroom: int, total: int, left: int)
    returns (targets: map<string, int>)
    requires headroom == Headroom(cs, |cs|) && headroom > 0
    requires total == Clamp(totalReclaim, 0, headroom) && total > 0
    requires left == Remaining(cs, total, headroom, 0)
    requires forall c :: c in cs ==> c.id in shared
    requires DistinctIDs(cs) ==>
      forall i :: 0 <= i < |cs| ==> shared[cs[i].id] == cs[i].size - Share(cs[i], total, headroom)
    ensures targets.Keys == shared.Keys
    ensures DistinctIDs(cs) ==>
      forall i :: 0 <= i < |cs| ==> targets[cs[i].id] == cs[i].size - Planned(cs, totalReclaim, i)
  {
    hide Share, Shares, Headroom, Planned;
    targets := shared;
    var remainder := left;
    for i := 0 to |cs|
      invariant targets.Keys == shared.Keys
      invariant DistinctIDs(cs) ==> remainder == Remaining(cs, total, headroom, i)
      invariant DistinctIDs(cs) ==>
        forall j :: 0 <= j < i ==> targets[cs[j].id] == cs[j].size - Planned(cs, totalReclaim, j)
      invariant DistinctIDs(cs) ==>
        forall j :: i <= j < |cs| ==> targets[cs[j].id] == cs[j].size - Share(cs[j], total, headroom)
    {
      if remainder <= 0 {
        if DistinctIDs(cs) {
          SharesStand(cs, totalReclaim, headroom, total, i);
        }
        break;
      }
      PlannedAt(cs, totalReclaim, headroom, total, i);
      var current := cs[i].size - targets[cs[i].id];
      var room := cs[i].headroom - current;
      if room <= 0 {
        continue;
      }
      var extra := Min(room, remainder);
      targets := targets[cs[i].id := targets[cs[i].id] - extra];
      remainder := remainder - extra;
    }
  }

  /** planGuestTargets: each VM's target is its size less its planned reclaim. */
  method PlanGuestTargets(cs: seq<Candidate>, totalReclaim: int) returns (targets: map<string, int>)
    ensures forall id :: id in targets <==> exists c :: c in cs && c.id == id
    ensures DistinctIDs(cs) ==>
      forall i :: 0 <= i < |cs| ==> cs[i].id in targets && targets[cs[i].id] == cs[i].size - Planned(cs, totalReclaim, i)
  {
    hide Share, Shares, Remaining;
    targets := map[];
    if |cs| == 0 {
      return;
    }
    var headroom := 0;
    for i := 0 to |cs|
      invariant headroom == Headroom(cs, i)
      invariant forall j :: 0 <= j < i ==> cs[j].id in targets
      invariant forall id :: id in targets ==> exists c :: c in cs && c.id == id
      invariant DistinctIDs(cs) ==> forall j :: 0 <= j < i ==> cs[j].id in targets && targets[cs[j].id] == cs[j].size
    {
      headroom := headroom + cs[i].headroom;
      targets := targets[cs[i].id := cs[i].size];
    }
    if headroom <= 0 {
      return;
    }
    var total := Clamp(totalReclaim, 0, headroom);
    if total == 0 {
      return;
    }
    var remainder;
    targets, remainder := ShareOut(cs, targets, headroom, total);
    targets := HandOut(cs, totalReclaim, targets, headroom, total, remainder);
  }
}
