/** The decisions of the active-ballooning controller: lib/guestmemory/active_ballooning.go,
    planner.go and the per-VM part of controller.go. Byte counts are taken as mathematical
    integers; only the planner's product is wrapped, in module BalloonPlanner. */
module BalloonControl {
  import opened BalloonPlanner

  /** ActiveBallooningConfig without the switches and the poll interval. */
  datatype Config = Config(high: int, low: int, floorPercent: int, floorMin: int,
                           minAdjust: int, maxStep: int, cooldown: int)

  const DEFAULTS := Config(10, 15, 50, 536870912, 67108864, 268435456, 5)

  predicate Sane(c: Config) {
    && 0 < c.high < c.low < 100
    && 0 < c.floorPercent < 100
    && 0 < c.floorMin && 0 < c.minAdjust && 0 < c.maxStep && 0 < c.cooldown
  }

  predicate Percent(n: int) { 0 < n < 100 }

  function Normalize(c: Config): Config {
    var high := if Percent(c.high) then c.high else DEFAULTS.high;
    var low := if Percent(c.low) then c.low else DEFAULTS.low;
    var (high, low) :=
      if low > high then (high, low)
      else if high + 1 >= 100 then (DEFAULTS.high, DEFAULTS.low)
      else (high, high + 1);
    Config(high, low,
           if Percent(c.floorPercent) then c.floorPercent else DEFAULTS.floorPercent,
           if c.floorMin > 0 then c.floorMin else DEFAULTS.floorMin,
           if c.minAdjust > 0 then c.minAdjust else DEFAULTS.minAdjust,
           if c.maxStep > 0 then c.maxStep else DEFAULTS.maxStep,
           if c.cooldown > 0 then c.cooldown else DEFAULTS.cooldown)
  }

  /** Every configuration is repaired, and exactly the sane ones are left alone. */
  lemma NormalizeRepairs(c: Config)
    ensures Sane(Normalize(c))
    ensures Normalize(c) == c <==> Sane(c)
    ensures Normalize(Normalize(c)) == Normalize(c)
  {}

  /* ---- host pressure ---- */

  datatype Pressure = Healthy | Pressured

  datatype Sample = Sample(total: int, available: int, percent: real, stressed: bool)

  function NextPressure(p: Pressure, c: Config, s: Sample): Pressure {
    match p
    case Pressured => if s.percent >= c.low as real && !s.stressed then Healthy else Pressured
    case Healthy => if s.percent < c.high as real || s.stressed then Pressured else Healthy
  }

  /** Run over a history of samples. */
  function PressureAfter(p: Pressure, c: Config, samples: seq<Sample>): Pressure {
    if samples == [] then p
    else NextPressure(PressureAfter(p, c, samples[..|samples| - 1]), c, samples[|samples| - 1])
  }

  /** Above the high watermark, below the low one, and not stressed. */
  predicate Between(c: Config, s: Sample) {
    c.high as real <= s.percent < c.low as real && !s.stressed
  }

  /** Hysteresis: the state after any history is the one set by the latest sample outside
      the band between the watermarks, and samples inside the band never change it. */
  lemma {:induction false} Hysteresis(p: Pressure, c: Config, samples: seq<Sample>, k: nat)
    requires Sane(c) && k < |samples|
    requires !Between(c, samples[k])
    requires forall i :: k < i < |samples| ==> Between(c, samples[i])
    ensures PressureAfter(p, c, samples) ==
            if samples[k].percent < c.high as real || samples[k].stressed then Pressured else Healthy
    decreases |samples|
  {
    var n := |samples| - 1;
    if k < n {
      Hysteresis(p, c, samples[..n], k);
    }
  }

  lemma {:induction false} QuietHistory(p: Pressure, c: Config, samples: seq<Sample>)
    requires Sane(c)
    requires forall i :: 0 <= i < |samples| ==> Between(c, samples[i])
    ensures PressureAfter(p, c, samples) == p
    decreases |samples|
  {
    if |samples| > 0 {
      QuietHistory(p, c, samples[..|samples| - 1]);
    }
  }

  function AutomaticTarget(p: Pressure, c: Config, s: Sample, reclaimed: int): int {
    if p.Healthy? || s.total <= 0 then 0
    else
      var needed := s.total * c.low / 100 - s.available;
      if needed > 0 then needed else if s.stressed then reclaimed else 0
  }

  /** The automatic target closes the gap to the low watermark: with that much reclaimed
      the host has at least the low watermark available, to within a byte. */
  lemma AutomaticTargetCloses(c: Config, s: Sample, reclaimed: int)
    requires Sane(c) && s.total > 0 && 0 <= reclaimed
    ensures AutomaticTarget(Pressured, c, s, reclaimed) >= 0
    ensures 100 * (s.available + AutomaticTarget(Pressured, c, s, reclaimed)) > s.total * c.low - 100
  {
    assert s.total * c.low >= 0;
  }

  /* ---- requests and holds ---- */

  datatype Option<T> = None | Some(value: T)

  datatype Hold = Hold(bytes: int, until: int)

  datatype Request = Request(force: bool, dryRun: bool, bytes: int, holdFor: int)

  /** What the poll loop passes to reconcile. */
  const POLL := Request(false, false, 0, 0)

  function NextHold(hold: Option<Hold>, req: Request, now: int): Option<Hold> {
    var kept := if hold.Some? && now > hold.value.until then None else hold;
    if req.force && !req.dryRun then
      if req.holdFor <= 0 then None else Some(Hold(req.bytes, now + req.holdFor))
    else kept
  }

  function ManualTarget(hold: Option<Hold>, req: Request): int {
    if req.dryRun then req.bytes
    else if req.force && req.bytes > 0 then req.bytes
    else if hold.Some? then hold.value.bytes
    else 0
  }

  /** A poll at `now` under `hold`. */
  datatype Poll = Poll(req: Request, now: int)

  function HoldAfter(hold: Option<Hold>, polls: seq<Poll>): Option<Hold> {
    if polls == [] then hold
    else
      var last := polls[|polls| - 1];
      NextHold(HoldAfter(hold, polls[..|polls| - 1]), last.req, last.now)
  }

  /** A hold set by a manual request stands through every later poll or dry run up to its
      expiry, and none survives it. */
  lemma {:induction false} HoldStands(req: Request, now: int, polls: seq<Poll>)
    requires req.force && !req.dryRun && req.holdFor > 0
    requires forall i :: 0 <= i < |polls| ==> polls[i].req.dryRun || !polls[i].req.force
    ensures var hold := HoldAfter(NextHold(None, req, now), polls);
      && (hold.Some? ==> hold.value == Hold(req.bytes, now + req.holdFor))
      && (hold.Some? <==> forall i :: 0 <= i < |polls| ==> polls[i].now <= now + req.holdFor)
    decreases |polls|
  {
    if |polls| > 0 {
      var n := |polls| - 1;
      HoldStands(req, now, polls[..n]);
      assert forall i :: 0 <= i < n ==> polls[..n][i] == polls[i];
      assert (forall i :: 0 <= i < |polls| ==> polls[i].now <= now + req.holdFor) <==>
             ((forall i :: 0 <= i < n ==> polls[..n][i].now <= now + req.holdFor) && polls[n].now <= now + req.holdFor);
    }
  }

  /* ---- one VM ---- */

  datatype VM = VM(id: string, size: nat)

  function ProtectedFloor(c: Config, size: nat): int {
    Min(Max(c.floorMin, size * c.floorPercent / 100), size)
  }

  lemma FloorInRange(c: Config, size: nat)
    requires Sane(c)
    ensures 0 <= ProtectedFloor(c, size) <= size
  {}

  /** The target given to one VM: small adjustments and VMs in cooldown are left alone,
      other moves are limited to one step, and the result is clamped. */
  function Applied(c: Config, vm: VM, current: int, planned: int, cooling: bool): int {
    var wanted := if Abs(planned - current) < c.minAdjust || cooling then current else planned;
    var stepped :=
      if wanted > current then current + Min(wanted - current, c.maxStep)
      else if wanted < current then current - Min(current - wanted, c.maxStep)
      else current;
    Clamp(stepped, ProtectedFloor(c, vm.size), vm.size)
  }

  function Abs(n: int): int { if n < 0 then -n else n }

  /** A VM inside its limits only ever moves towards its plan, by at most one step, without
      overshooting, and stays put exactly when it is near enough or cooling down. A VM below its
      floor is raised to the floor whatever the plan. */
  lemma AppliedApproaches(c: Config, vm: VM, current: int, planned: int, cooling: bool)
    requires Sane(c) && 0 <= current <= vm.size
    requires ProtectedFloor(c, vm.size) <= planned <= vm.size
    ensures var a := Applied(c, vm, current, planned, cooling);
      && ProtectedFloor(c, vm.size) <= a <= vm.size
      && (current <= planned ==> current <= a <= Max(planned, ProtectedFloor(c, vm.size)))
      && (current >= planned ==> planned <= a <= current)
      && (ProtectedFloor(c, vm.size) <= current ==>
            && Abs(a - current) <= c.maxStep
            && (a == current <==> Abs(planned - current) < c.minAdjust || cooling))
      && (current < ProtectedFloor(c, vm.size) ==> a > current)
  {}

  /** How far one round gets. */
  lemma AppliedGains(c: Config, vm: VM, current: int, planned: int)
    requires Sane(c) && 0 <= current <= vm.size
    requires ProtectedFloor(c, vm.size) <= planned <= vm.size
    ensures var a := Applied(c, vm, current, planned, false);
      var d := Abs(planned - current);
      && Abs(planned - a) <= Max(d - c.maxStep, c.minAdjust - 1)
      && (ProtectedFloor(c, vm.size) <= current && d >= c.minAdjust ==> Abs(planned - a) == Max(d - c.maxStep, 0))
  {}

  /** The target of one VM after `n` forced rounds with the same plan. */
  function Rounds(c: Config, vm: VM, current: int, planned: int, n: nat): int {
    if n == 0 then current else Applied(c, vm, Rounds(c, vm, current, planned, n - 1), planned, false)
  }

  lemma Times(n: int, step: int)
    ensures n * step == (n - 1) * step + step
  {}

  /** Closed form from a target at or above the floor: the distance to the plan shrinks by
      one step a round while it is at least the minimum adjustment. */
  lemma {:induction false} RoundsShrink(c: Config, vm: VM, current: int, planned: int, n: nat)
    requires Sane(c) && ProtectedFloor(c, vm.size) <= current <= vm.size
    requires ProtectedFloor(c, vm.size) <= planned <= vm.size
    ensures var t := Rounds(c, vm, current, planned, n);
      var d := Abs(planned - current);
      && ProtectedFloor(c, vm.size) <= t <= vm.size
      && (current <= planned ==> current <= t <= planned)
      && (current >= planned ==> planned <= t <= current)
      && (d - n * c.maxStep >= c.minAdjust ==> Abs(planned - t) == d - n * c.maxStep)
      && (d - n * c.maxStep < c.minAdjust ==> Abs(planned - t) < c.minAdjust)
  {
    hide Applied, ProtectedFloor;
    FloorInRange(c, vm.size);
    if n > 0 {
      RoundsShrink(c, vm, current, planned, n - 1);
      Times(n, c.maxStep);
      AppliedApproaches(c, vm, Rounds(c, vm, current, planned, n - 1), planned, false);
      AppliedGains(c, vm, Rounds(c, vm, current, planned, n - 1), planned);
    }
  }

  /** Bounded convergence, exactly: after `n` forced rounds a VM within its limits is within the minimum
      adjustment of its plan, and stays where it is, if and only if `n` steps leave less
      than the minimum adjustment of the distance. */
  lemma ConvergesExactly(c: Config, vm: VM, current: int, planned: int, n: nat)
    requires Sane(c) && ProtectedFloor(c, vm.size) <= current <= vm.size
    requires ProtectedFloor(c, vm.size) <= planned <= vm.size
    ensures var t := Rounds(c, vm, current, planned, n);
      && (Abs(planned - t) < c.minAdjust <==> Abs(planned - current) - n * c.maxStep < c.minAdjust)
      && (Rounds(c, vm, current, planned, n + 1) == t <==> Abs(planned - current) - n * c.maxStep < c.minAdjust)
  {
    RoundsShrink(c, vm, current, planned, n);
    AppliedApproaches(c, vm, Rounds(c, vm, current, planned, n), planned, false);
  }

  /** From any target, also one below the floor. */
  lemma {:induction false} Converges(c: Config, vm: VM, current: int, planned: int, n: nat)
    requires Sane(c) && 0 <= current <= vm.size
    requires ProtectedFloor(c, vm.size) <= planned <= vm.size
    requires n > 0 && Abs(planned - current) <= n * c.maxStep
    ensures Abs(planned - Rounds(c, vm, current, planned, n)) < c.minAdjust
  {
    hide Applied, ProtectedFloor, Rounds;
    if ProtectedFloor(c, vm.size) <= current {
      ConvergesExactly(c, vm, current, planned, n);
    } else {
      var first := Applied(c, vm, current, planned, false);
      AppliedApproaches(c, vm, current, planned, false);
      AppliedGains(c, vm, current, planned);
      FloorInRange(c, vm.size);
      RoundsAhead(c, vm, current, planned, n - 1);
      Times(n, c.maxStep);
      ConvergesExactly(c, vm, first, planned, n - 1);
    }
  }

  lemma {:induction false} RoundsAhead(c: Config, vm: VM, current: int, planned: int, n: nat)
    ensures Rounds(c, vm, current, planned, n + 1) ==
            Rounds(c, vm, Applied(c, vm, current, planned, false), planned, n)
  {
    if n > 0 {
      RoundsAhead(c, vm, current, planned, n - 1);
    }
  }

  /* ---- all VMs ---- */

  /** What the planner is told about a VM. */
  function CandidateOf(c: Config, vm: VM): Candidate {
    Candidate(vm.id, vm.size, Max(0, vm.size - ProtectedFloor(c, vm.size)))
  }

  function Candidates(c: Config, vms: seq<VM>): (cs: seq<Candidate>)
    ensures |cs| == |vms|
    ensures forall i :: 0 <= i < |vms| ==> cs[i] == CandidateOf(c, vms[i])
  {
    if vms == [] then [] else Candidates(c, vms[..|vms| - 1]) + [CandidateOf(c, vms[|vms| - 1])]
  }

  function PlannedTarget(c: Config, vms: seq<VM>, total: int, i: nat): int
    requires i < |vms|
  {
    vms[i].size - Planned(Candidates(c, vms), total, i)
  }

  /** The targets of all VMs after `n` forced rounds towards the same total. */
  ghost predicate FleetAfter(c: Config, vms: seq<VM>, total: int, n: nat, start: seq<int>, end: seq<int>) {
    && |start| == |end| == |vms|
    && forall i :: 0 <= i < |vms| ==> end[i] == Rounds(c, vms[i], start[i], PlannedTarget(c, vms, total, i), n)
  }

  lemma FleetStep(c: Config, vms: seq<VM>, total: int, n: nat, start: seq<int>, mid: seq<int>, end: seq<int>)
    requires FleetAfter(c, vms, total, n, start, mid) && FleetAfter(c, vms, total, 1, mid, end)
    ensures FleetAfter(c, vms, total, n + 1, start, end)
  {
    hide Applied, PlannedTarget;
    forall i | 0 <= i < |vms|
      ensures end[i] == Rounds(c, vms[i], start[i], PlannedTarget(c, vms, total, i), n + 1)
    {
      assert Rounds(c, vms[i], mid[i], PlannedTarget(c, vms, total, i), 0) == mid[i];
    }
  }

  /** The memory the first `n` VMs have given up. */
  function Reclaimed(vms: seq<VM>, targets: seq<int>, n: nat): int
    requires n <= |vms| == |targets|
  {
    if n == 0 then 0 else Reclaimed(vms, targets, n - 1) + vms[n - 1].size - targets[n - 1]
  }

  lemma {:induction false} ReclaimedNear(c: Config, vms: seq<VM>, total: int, targets: seq<int>, n: nat)
    requires n <= |vms| == |targets|
    requires forall i :: 0 <= i < |vms| ==> Abs(PlannedTarget(c, vms, total, i) - targets[i]) < c.minAdjust
    ensures Abs(Reclaimed(vms, targets, n) - PlannedSum(Candidates(c, vms), total, n)) <= n * (c.minAdjust - 1)
    decreases n
  {
    hide Planned, Candidates;
    if n > 0 {
      ReclaimedNear(c, vms, total, targets, n - 1);
      Times(n, c.minAdjust - 1);
      assert Abs(PlannedTarget(c, vms, total, n - 1) - targets[n - 1]) < c.minAdjust;
    }
  }

  /** Bounded convergence of the whole host: from any targets, after enough forced rounds
      for one VM to cross its whole memory, every VM is within the minimum adjustment of its
      plan, and the memory given up is within that much per VM of the requested total. */
  lemma FleetConverges(c: Config, vms: seq<VM>, total: int, n: nat, start: seq<int>, end: seq<int>)
    requires Sane(c) && n > 0 && FleetAfter(c, vms, total, n, start, end)
    requires Exact(Candidates(c, vms), total)
    requires forall i :: 0 <= i < |vms| ==> 0 <= start[i] <= vms[i].size <= n * c.maxStep
    ensures forall i :: 0 <= i < |vms| ==> Abs(PlannedTarget(c, vms, total, i) - end[i]) < c.minAdjust
    ensures Abs(Reclaimed(vms, end, |vms|) - Clamp(total, 0, Headroom(Candidates(c, vms), |vms|)))
            <= |vms| * (c.minAdjust - 1)
  {
    hide Planned, Rounds, ProtectedFloor;
    forall i | 0 <= i < |vms|
      ensures Abs(PlannedTarget(c, vms, total, i) - end[i]) < c.minAdjust
    {
      FloorInRange(c, vms[i].size);
      assert Candidates(c, vms)[i] == CandidateOf(c, vms[i]);
      Converges(c, vms[i], start[i], PlannedTarget(c, vms, total, i), n);
    }
    ReclaimedNear(c, vms, total, end, |vms|);
  }
}
