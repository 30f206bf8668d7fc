/** The reconcile step of lib/guestmemory/controller.go. The controller holds its lock for
    the whole of reconcile, so one call is one step of its state. Clock, host sample and VM
    list are parameters; hypervisors answer or fail as they like. */
module BalloonController {
  import opened BalloonPlanner
  import opened BalloonControl

  datatype Write = Write(id: string, value: int)

  datatype Contact = NoClient | Unsupported | Unreadable | Target(bytes: int)

  /** The hypervisors, by the VM they run. */
  class Hypervisors {
    var targets: map<string, int>
    ghost var writes: seq<Write>

    /** newClient, Capabilities and GetTargetGuestMemoryBytes. */
    method Contact(vm: VM) returns (r: Contact)
      ensures r.Target? ==> vm.id in targets && targets[vm.id] == r.bytes
    {
      var connected: bool, capable: bool, readable: bool := *, *, *;
      if !connected {
        return NoClient;
      }
      if !capable {
        return Unsupported;
      }
      if !readable || vm.id !in targets {
        return Unreadable;
      }
      return Target(targets[vm.id]);
    }

    /** SetTargetGuestMemoryBytes. A call that reports an error may still have been obeyed. */
    method SetTarget(id: string, value: int) returns (ok: bool)
      modifies this
      ensures writes == old(writes) + [Write(id, value)]
      ensures ok ==> targets == old(targets)[id := value]
      ensures targets == old(targets) || targets == old(targets)[id := value]
    {
      writes := writes + [Write(id, value)];
      ok := *;
      var obeyed: bool := *;
      if ok || obeyed {
        targets := targets[id := value];
      }
    }
  }

  datatype Tracked = Tracked(vm: VM, current: int)

  datatype Status = Unchanged | Planned_ | Applied_ | Error

  datatype Action = Action(vm: VM, floor: int, previous: int, planned: int, target: int, applied: int, status: Status)

  datatype Response = Response(requested: int, planned: int, applied: int, holdUntil: Option<int>,
                               available: int, pressure: Pressure, skipped: seq<string>, actions: seq<Action>)

  ghost predicate DistinctVMs(vms: seq<VM>) {
    forall i, j :: 0 <= i < j < |vms| ==> vms[i].id != vms[j].id
  }

  function VMs(ts: seq<Tracked>): (vms: seq<VM>)
    ensures |vms| == |ts| && forall i :: 0 <= i < |ts| ==> vms[i] == ts[i].vm
  {
    seq(|ts|, i requires 0 <= i < |ts| => ts[i].vm)
  }

  function Currents(ts: seq<Tracked>): (s: seq<int>)
    ensures |s| == |ts| && forall i :: 0 <= i < |ts| ==> s[i] == ts[i].current
  {
    seq(|ts|, i requires 0 <= i < |ts| => ts[i].current)
  }

  predicate Cooling(c: Config, req: Request, lastApplied: map<string, int>, id: string, now: int) {
    !req.force && id in lastApplied && now - lastApplied[id] < c.cooldown
  }

  /** The report on one VM: what was there, what was planned, what was asked for and how it went. */
  ghost predicate Decided(c: Config, req: Request, t: Tracked, planned: int, cooling: bool, a: Action) {
    var floor := ProtectedFloor(c, t.vm.size);
    var value := Applied(c, t.vm, t.current, planned, cooling);
    && a.vm == t.vm && a.floor == floor && a.previous == t.current
    && a.planned == Clamp(planned, floor, t.vm.size)
    && (a.status.Error? ==> value != t.current && !req.dryRun)
    && (a.status.Applied_? ==> value != t.current && !req.dryRun)
    && (a.status.Planned_? <==> value != t.current && req.dryRun)
    && (a.status.Unchanged? <==> value == t.current)
    && a.target == (if a.status.Error? then t.current else value)
    && a.applied == (if req.dryRun || a.status.Error? then 0 else t.vm.size - a.target)
  }

  /** Every new write is for a tracked VM and within its limits. */
  ghost predicate WithinLimits(c: Config, ts: seq<Tracked>, w: Write) {
    exists i :: 0 <= i < |ts| && ts[i].vm.id == w.id && ProtectedFloor(c, ts[i].vm.size) <= w.value <= ts[i].vm.size
  }

  function PlannedBytes(actions: seq<Action>): int {
    if actions == [] then 0
    else PlannedBytes(actions[..|actions| - 1]) + actions[|actions| - 1].vm.size - actions[|actions| - 1].planned
  }

  function AppliedBytes(actions: seq<Action>): int {
    if actions == [] then 0 else AppliedBytes(actions[..|actions| - 1]) + actions[|actions| - 1].applied
  }

  /** The planned bytes of a report are the planner's sum when the plan is exact. */
  lemma {:induction false} PlannedBytesExact(c: Config, ts: seq<Tracked>, total: int, actions: seq<Action>, n: nat)
    requires Sane(c) && n == |actions| <= |ts|
    requires Exact(Candidates(c, VMs(ts)), total)
    requires forall i :: 0 <= i < n ==> actions[i].vm == ts[i].vm
    requires forall i :: 0 <= i < n ==>
      actions[i].planned == Clamp(PlannedTarget(c, VMs(ts), total, i), ProtectedFloor(c, ts[i].vm.size), ts[i].vm.size)
    ensures PlannedBytes(actions) == PlannedSum(Candidates(c, VMs(ts)), total, n)
    decreases n
  {
    hide Planned, ProtectedFloor;
    if n > 0 {
      PlannedBytesExact(c, ts, total, actions[..n - 1], n - 1);
      var i := n - 1;
      FloorInRange(c, ts[i].vm.size);
      assert Candidates(c, VMs(ts))[i] == CandidateOf(c, ts[i].vm);
      assert 0 <= Planned(Candidates(c, VMs(ts)), total, i) <= Candidates(c, VMs(ts))[i].headroom;
    }
  }

  /** One report per tracked VM, each against the plan for the same total. */
  ghost predicate Reported(c: Config, req: Request, ts: seq<Tracked>, total: int,
                           last: map<string, int>, now: int, actions: seq<Action>)
  {
    && |actions| <= |ts|
    && forall i :: 0 <= i < |actions| ==>
         Decided(c, req, ts[i], PlannedTarget(c, VMs(ts), total, i), Cooling(c, req, last, ts[i].vm.id, now), actions[i])
  }

  /** The times of the latest successful writes, after those of `actions`. */
  function Stamped(last: map<string, int>, actions: seq<Action>, now: int): map<string, int>
    decreases |actions|
  {
    if actions == [] then last
    else
      var m := Stamped(last, actions[..|actions| - 1], now);
      var a := actions[|actions| - 1];
      if a.status.Applied_? then m[a.vm.id := now] else m
  }

  lemma {:induction false} StampedOther(last: map<string, int>, actions: seq<Action>, now: int, id: string)
    requires forall i :: 0 <= i < |actions| ==> actions[i].vm.id != id
    ensures id in Stamped(last, actions, now) <==> id in last
    ensures id in last ==> Stamped(last, actions, now)[id] == last[id]
    decreases |actions|
  {
    if |actions| > 0 {
      StampedOther(last, actions[..|actions| - 1], now, id);
    }
  }

  predicate Tracks(ts: seq<Tracked>, id: string) {
    exists i :: 0 <= i < |ts| && ts[i].vm.id == id
  }

  /** Where the balloons stand: reports without an error tell the targets the next round will read. */
  ghost predicate Standing(targets: map<string, int>, actions: seq<Action>) {
    forall i :: 0 <= i < |actions| && !actions[i].status.Error? && !actions[i].status.Planned_? ==>
      actions[i].vm.id in targets && Clamp(targets[actions[i].vm.id], 0, actions[i].vm.size) == actions[i].target
  }

  /** Targets of the VMs not yet reported on. */
  ghost predicate Untouched(targets: map<string, int>, ts: seq<Tracked>, n: nat) {
    forall i :: n <= i < |ts| ==>
      ts[i].vm.id in targets && ts[i].current == Clamp(targets[ts[i].vm.id], 0, ts[i].vm.size)
  }

  lemma AppliedInLimits(c: Config, t: Tracked, planned: int, cooling: bool)
    requires Sane(c)
    ensures ProtectedFloor(c, t.vm.size) <= Applied(c, t.vm, t.current, planned, cooling) <= t.vm.size
  {}

  lemma StandingStep(c: Config, req: Request, ts: seq<Tracked>, actions: seq<Action>,
                     before: map<string, int>, after: map<string, int>, a: Action, planned: int, cooling: bool)
    requires |actions| < |ts| && DistinctVMs(VMs(ts)) && Sane(c)
    requires Standing(before, actions) && Untouched(before, ts, |actions|)
    requires forall i :: 0 <= i < |actions| ==> actions[i].vm == ts[i].vm
    requires Decided(c, req, ts[|actions|], planned, cooling, a)
    requires after - {a.vm.id} == before - {a.vm.id}
    requires a.status.Applied_? ==> after == before[a.vm.id := a.target]
    requires a.status.Unchanged? || a.status.Planned_? ==> after == before
    ensures Standing(after, actions + [a]) && Untouched(after, ts, |actions| + 1)
  {
    hide Applied, ProtectedFloor;
    var n := |actions|;
    FloorInRange(c, ts[n].vm.size);
    AppliedInLimits(c, ts[n], planned, cooling);
    var vms := VMs(ts);
    forall i | 0 <= i < |ts| && i != n
      ensures ts[i].vm.id in after <==> ts[i].vm.id in before
      ensures ts[i].vm.id in before ==> after[ts[i].vm.id] == before[ts[i].vm.id]
    {
      assert vms[i].id != vms[n].id;
      assert ts[i].vm.id in after - {a.vm.id} <==> ts[i].vm.id in before - {a.vm.id};
      if ts[i].vm.id in before {
        assert (after - {a.vm.id})[ts[i].vm.id] == (before - {a.vm.id})[ts[i].vm.id];
      }
    }
  }

  function Targets(actions: seq<Action>): (s: seq<int>)
    ensures |s| == |actions| && forall i :: 0 <= i < |actions| ==> s[i] == actions[i].target
  {
    seq(|actions|, i requires 0 <= i < |actions| => actions[i].target)
  }

  /** A forced round without errors is one step of the convergence argument. */
  lemma ForcedRound(c: Config, req: Request, ts: seq<Tracked>, total: int, last: map<string, int>, now: int,
                    actions: seq<Action>)
    requires req.force && |actions| == |ts| && Reported(c, req, ts, total, last, now, actions)
    requires forall i :: 0 <= i < |actions| ==> !actions[i].status.Error?
    ensures FleetAfter(c, VMs(ts), total, 1, Currents(ts), Targets(actions))
  {
    hide PlannedTarget, Applied, ProtectedFloor;
    forall i | 0 <= i < |ts|
      ensures Targets(actions)[i] == Rounds(c, VMs(ts)[i], Currents(ts)[i], PlannedTarget(c, VMs(ts), total, i), 1)
    {
      assert Decided(c, req, ts[i], PlannedTarget(c, VMs(ts), total, i), false, actions[i]);
      assert Rounds(c, ts[i].vm, ts[i].current, PlannedTarget(c, VMs(ts), total, i), 0) == ts[i].current;
    }
  }

  /** What a successful reconcile reports. */
  ghost predicate Answered(c: Config, req: Request, now: int, s: Sample, p: Pressure, hold: Option<Hold>,
                           last: map<string, int>, ts: seq<Tracked>, r: Response)
  {
    var total := Total(c, req, s, p, hold, ts);
    && r.requested == req.bytes && r.available == s.available && r.pressure == p
    && r.holdUntil == (if hold.Some? then Some(hold.value.until) else None)
    && |r.actions| == |ts| && Reported(c, req, ts, total, last, now, r.actions)
    && r.planned == PlannedBytes(r.actions) && r.applied == AppliedBytes(r.actions)
    && (Exact(Candidates(c, VMs(ts)), total) ==>
          r.planned == Clamp(total, 0, Headroom(Candidates(c, VMs(ts)), |ts|)))
  }

  /** The larger of the automatic and the manual target. */
  function Total(c: Config, req: Request, s: Sample, p: Pressure, hold: Option<Hold>, ts: seq<Tracked>): int {
    Max(AutomaticTarget(p, c, s, Reclaimed(VMs(ts), Currents(ts), |ts|)), ManualTarget(hold, req))
  }

  class Controller {
    const config: Config
    const hypervisors: Hypervisors
    var pressure: Pressure
    var hold: Option<Hold>
    var lastApplied: map<string, int>

    constructor (config: Config, hypervisors: Hypervisors)
      ensures Sane(this.config) && this.config == Normalize(config) && this.hypervisors == hypervisors
      ensures pressure == Healthy && hold == None && lastApplied == map[]
    {
      NormalizeRepairs(config);
      this.config := Normalize(config);
      this.hypervisors := hypervisors;
      pressure, hold, lastApplied := Healthy, None, map[];
    }

    /** The VMs whose hypervisor answers, with their current targets. */
    method Gather(vms: seq<VM>) returns (ts: seq<Tracked>, skipped: seq<string>, reclaimed: int)
      ensures |ts| + |skipped| == |vms|
      ensures forall t :: t in ts ==>
        && t.vm in vms && t.vm.id in hypervisors.targets
        && t.current == Clamp(hypervisors.targets[t.vm.id], 0, t.vm.size)
      ensures DistinctVMs(vms) ==> DistinctVMs(VMs(ts))
      ensures reclaimed == Reclaimed(VMs(ts), Currents(ts), |ts|)
      ensures skipped == [] ==> VMs(ts) == vms
    {
      hide DistinctVMs, Reclaimed;
      ts, skipped, reclaimed := [], [], 0;
      GatherStart();
      for i := 0 to |vms|
        invariant |ts| + |skipped| == i
        invariant forall t :: t in ts ==>
          && t.vm in vms[..i] && t.vm.id in hypervisors.targets
          && t.current == Clamp(hypervisors.targets[t.vm.id], 0, t.vm.size)
        invariant DistinctVMs(vms) ==> DistinctVMs(VMs(ts))
        invariant reclaimed == Reclaimed(VMs(ts), Currents(ts), |ts|)
        invariant skipped == [] ==> VMs(ts) == vms[..i]
      {
        var contact := hypervisors.Contact(vms[i]);
        if !contact.Target? {
          skipped := skipped + [vms[i].id];
          continue;
        }
        var current := Clamp(contact.bytes, 0, vms[i].size);
        var given := vms[i].size - current;
        if given < 0 {
          given := 0;
        }
        reclaimed := reclaimed + given;
        ReclaimedExtends(ts, Tracked(vms[i], current));
        DistinctExtends(vms, i, ts, Tracked(vms[i], current));
        ts := ts + [Tracked(vms[i], current)];
      }
    }

    /** The body of the apply loop. */
    method Steer(req: Request, now: int, t: Tracked, planned: int) returns (a: Action)
      requires Sane(config) && t.current <= t.vm.size
      modifies this`lastApplied, hypervisors
      ensures Decided(config, req, t, planned, Cooling(config, req, old(lastApplied), t.vm.id, now), a)
      ensures lastApplied == if a.status.Applied_? then old(lastApplied)[t.vm.id := now] else old(lastApplied)
      ensures a.status.Unchanged? || a.status.Planned_? ==>
        hypervisors.writes == old(hypervisors.writes) && hypervisors.targets == old(hypervisors.targets)
      ensures a.status.Applied_? || a.status.Error? ==>
        hypervisors.writes == old(hypervisors.writes) +
          [Write(t.vm.id, Applied(config, t.vm, t.current, planned, Cooling(config, req, old(lastApplied), t.vm.id, now)))]
      ensures a.status.Applied_? ==> hypervisors.targets == old(hypervisors.targets)[t.vm.id := a.target]
      ensures hypervisors.targets - {t.vm.id} == old(hypervisors.targets) - {t.vm.id}
    {
      var floor := ProtectedFloor(config, t.vm.size);
      FloorInRange(config, t.vm.size);
      var value := planned;
      if Abs(value - t.current) < config.minAdjust {
        value := t.current;
      }
      if !req.force {
        if t.vm.id in lastApplied && now - lastApplied[t.vm.id] < config.cooldown {
          value := t.current;
        }
      }
      var delta := value - t.current;
      if value != t.current {
        if delta > 0 {
          value := t.current + Min(delta, config.maxStep);
        } else {
          value := t.current - Min(-delta, config.maxStep);
        }
      }
      value := Clamp(value, floor, t.vm.size);
      a := Action(t.vm, floor, t.current, Clamp(planned, floor, t.vm.size), t.current, 0, Unchanged);
      if !req.dryRun && value != t.current {
        var ok := hypervisors.SetTarget(t.vm.id, value);
        if !ok {
          a := a.(status := Error);
          return;
        }
        lastApplied := lastApplied[t.vm.id := now];
        a := a.(status := Applied_, target := value);
      }
      if req.dryRun && value != t.current {
        a := a.(status := Planned_, target := value);
      }
      if !req.dryRun {
        a := a.(applied := t.vm.size - a.target);
      }
    }

    /** The apply loop. */
    method SteerAll(req: Request, now: int, ts: seq<Tracked>, plan: map<string, int>, ghost total: int)
      returns (actions: seq<Action>, planned: int, applied: int)
      requires Sane(config) && DistinctVMs(VMs(ts))
      requires forall i :: 0 <= i < |ts| ==> ts[i].current <= ts[i].vm.size
      requires forall i :: 0 <= i < |ts| ==>
        ts[i].vm.id in plan && plan[ts[i].vm.id] == PlannedTarget(config, VMs(ts), total, i)
      requires Untouched(hypervisors.targets, ts, 0)
      modifies this`lastApplied, hypervisors
      ensures |actions| == |ts| && Reported(config, req, ts, total, old(lastApplied), now, actions)
      ensures planned == PlannedBytes(actions) && applied == AppliedBytes(actions)
      ensures lastApplied == Stamped(old(lastApplied), actions, now)
      ensures Standing(hypervisors.targets, actions)
      ensures old(hypervisors.writes) <= hypervisors.writes
      ensures forall k :: |old(hypervisors.writes)| <= k < |hypervisors.writes| ==>
        WithinLimits(config, ts, hypervisors.writes[k])
      ensures req.dryRun ==> hypervisors.writes == old(hypervisors.writes) && hypervisors.targets == old(hypervisors.targets)
    {
      hide PlannedTarget, Applied, ProtectedFloor;
      actions, planned, applied := [], 0, 0;
      for i := 0 to |ts|
        invariant |actions| == i && Reported(config, req, ts, total, old(lastApplied), now, actions)
        invariant planned == PlannedBytes(actions) && applied == AppliedBytes(actions)
        invariant lastApplied == Stamped(old(lastApplied), actions, now)
        invariant Standing(hypervisors.targets, actions) && Untouched(hypervisors.targets, ts, i)
        invariant old(hypervisors.writes) <= hypervisors.writes
        invariant forall k :: |old(hypervisors.writes)| <= k < |hypervisors.writes| ==>
          WithinLimits(config, ts, hypervisors.writes[k])
        invariant req.dryRun ==>
          hypervisors.writes == old(hypervisors.writes) && hypervisors.targets == old(hypervisors.targets)
      {
        ghost var before, beforeLast := hypervisors.targets, lastApplied;
        StampedOther(old(lastApplied), actions, now, ts[i].vm.id);
        var goal := plan[ts[i].vm.id];
        var a := Steer(req, now, ts[i], goal);
        AppliedInLimits(config, ts[i], goal, Cooling(config, req, beforeLast, ts[i].vm.id, now));
        StandingStep(config, req, ts, actions, before, hypervisors.targets, a, goal,
                     Cooling(config, req, beforeLast, ts[i].vm.id, now));
        assert actions == (actions + [a])[..i];
        actions := actions + [a];
        planned := planned + ts[i].vm.size - a.planned;
        applied := applied + a.applied;
      }
    }

    /** Forgets the write times of VMs that are no longer candidates. */
    method Prune(ts: seq<Tracked>)
      modifies this`lastApplied
      ensures forall id :: id in lastApplied <==> id in old(lastApplied) && Tracks(ts, id)
      ensures forall id :: id in lastApplied ==> lastApplied[id] == old(lastApplied)[id]
    {
      var todo := lastApplied.Keys;
      while todo != {}
        invariant todo <= old(lastApplied).Keys
        invariant forall id :: id in lastApplied <==> id in old(lastApplied) && (id in todo || Tracks(ts, id))
        invariant forall id :: id in lastApplied ==> lastApplied[id] == old(lastApplied)[id]
        decreases todo
      {
        var id :| id in todo;
        todo := todo - {id};
        if !Tracks(ts, id) {
          lastApplied := lastApplied - {id};
        }
      }
    }

    /** The start of reconcile: an expired hold goes, a forced request sets or clears it. */
    method UpdateHold(req: Request, now: int)
      modifies this`hold
      ensures hold == NextHold(old(hold), req, now)
    {
      if hold.Some? && now > hold.value.until {
        hold := None;
      }
      if req.force && !req.dryRun {
        if req.holdFor <= 0 {
          hold := None;
        } else {
          hold := Some(Hold(req.bytes, now + req.holdFor));
        }
      }
    }

    /** reconcile. A failed sample changes nothing; a failed listing changes at most the hold. */
    method Reconcile(req: Request, now: int, sampled: Option<Sample>, listed: Option<seq<VM>>)
      returns (r: Option<Response>, ghost ts: seq<Tracked>)
      requires Sane(config)
      requires listed.Some? ==> DistinctVMs(listed.value)
      modifies this, hypervisors
      ensures r.Some? <==> sampled.Some? && listed.Some?
      ensures hold == if sampled.Some? then NextHold(old(hold), req, now) else old(hold)
      ensures r.None? ==> unchanged(hypervisors) && pressure == old(pressure) && lastApplied == old(lastApplied)
      ensures r.Some? ==> pressure == NextPressure(old(pressure), config, sampled.value)
      ensures r.Some? ==>
        && |ts| + |r.value.skipped| == |listed.value|
        && (r.value.skipped == [] ==> VMs(ts) == listed.value)
        && (forall t :: t in ts ==>
              && t.vm in listed.value && t.vm.id in old(hypervisors.targets)
              && t.current == Clamp(old(hypervisors.targets)[t.vm.id], 0, t.vm.size))
        && Answered(config, req, now, sampled.value, pressure, hold, old(lastApplied), ts, r.value)
      ensures r.Some? ==>
        && (forall id :: id in lastApplied <==> id in Stamped(old(lastApplied), r.value.actions, now) && Tracks(ts, id))
        && (forall id :: id in lastApplied ==> lastApplied[id] == Stamped(old(lastApplied), r.value.actions, now)[id])
        && Standing(hypervisors.targets, r.value.actions)
      ensures old(hypervisors.writes) <= hypervisors.writes
      ensures forall k :: |old(hypervisors.writes)| <= k < |hypervisors.writes| ==>
        WithinLimits(config, ts, hypervisors.writes[k])
      ensures req.dryRun ==> hypervisors.writes == old(hypervisors.writes) && hypervisors.targets == old(hypervisors.targets)
    {
      hide PlannedTarget, Reported, Standing, WithinLimits, Stamped, DistinctVMs;
      ts := [];
      if sampled.None? {
        return None, ts;
      }
      UpdateHold(req, now);
      if listed.None? {
        return None, ts;
      }
      var tracked, skipped, reclaimed := Gather(listed.value);
      ts := tracked;
      pressure := NextPressure(pressure, config, sampled.value);
      var auto := AutomaticTarget(pressure, config, sampled.value, reclaimed);
      var manual := 0;
      if req.dryRun {
        manual := req.bytes;
      } else if req.force && req.bytes > 0 {
        manual := req.bytes;
      } else if hold.Some? {
        manual := hold.value.bytes;
      }
      var total := Max(auto, manual);
      var plan := PlanFor(config, tracked, total);
      var actions, planned, applied := SteerAll(req, now, tracked, plan, total);
      PlannedTotal(config, req, tracked, total, old(lastApplied), now, actions);
      Prune(tracked);
      r := Some(Response(req.bytes, planned, applied, if hold.Some? then Some(hold.value.until) else None,
                         sampled.value.available, pressure, skipped, actions));
    }
  }

  lemma {:induction false} ReclaimedPrefix(ts: seq<Tracked>, us: seq<Tracked>, n: nat)
    requires n <= |ts| && ts <= us
    ensures Reclaimed(VMs(us), Currents(us), n) == Reclaimed(VMs(ts), Currents(ts), n)
  {
    if n > 0 {
      ReclaimedPrefix(ts, us, n - 1);
    }
  }

  lemma ReclaimedExtends(ts: seq<Tracked>, t: Tracked)
    ensures Reclaimed(VMs(ts + [t]), Currents(ts + [t]), |ts| + 1) ==
            Reclaimed(VMs(ts), Currents(ts), |ts|) + t.vm.size - t.current
  {
    ReclaimedPrefix(ts, ts + [t], |ts|);
  }

  lemma GatherStart()
    ensures DistinctVMs(VMs([])) && Reclaimed(VMs([]), Currents([]), 0) == 0
  {}

  lemma DistinctExtends(vms: seq<VM>, i: nat, ts: seq<Tracked>, t: Tracked)
    requires i < |vms| && t.vm == vms[i] && forall u :: u in ts ==> u.vm in vms[..i]
    ensures DistinctVMs(vms) && DistinctVMs(VMs(ts)) ==> DistinctVMs(VMs(ts + [t]))
  {
    forall k | DistinctVMs(vms) && 0 <= k < |ts|
      ensures ts[k].vm.id != t.vm.id
    {
      assert ts[k] in ts;
    }
    forall k | DistinctVMs(VMs(ts)) && 0 <= k < |ts|
      ensures VMs(ts + [t])[k] == VMs(ts)[k]
    {}
  }

  /** The planner, called on the tracked VMs. */
  method PlanFor(c: Config, ts: seq<Tracked>, total: int) returns (plan: map<string, int>)
    requires DistinctVMs(VMs(ts))
    ensures forall i :: 0 <= i < |ts| ==>
      ts[i].vm.id in plan && plan[ts[i].vm.id] == PlannedTarget(c, VMs(ts), total, i)
  {
    hide Planned;
    var cs := Candidates(c, VMs(ts));
    assert DistinctIDs(cs) by {
      assert forall i :: 0 <= i < |ts| ==> cs[i].id == VMs(ts)[i].id;
    }
    plan := PlanGuestTargets(cs, total);
    assert forall i :: 0 <= i < |ts| ==> cs[i].id == ts[i].vm.id && cs[i].size == ts[i].vm.size;
  }

  lemma PlannedTotal(c: Config, req: Request, ts: seq<Tracked>, total: int, last: map<string, int>, now: int,
                     actions: seq<Action>)
    requires Sane(c) && |actions| == |ts| && Reported(c, req, ts, total, last, now, actions)
    ensures Exact(Candidates(c, VMs(ts)), total) ==>
      PlannedBytes(actions) == Clamp(total, 0, Headroom(Candidates(c, VMs(ts)), |ts|))
  {
    hide PlannedTarget, Applied, ProtectedFloor;
    if Exact(Candidates(c, VMs(ts)), total) {
      PlannedBytesExact(c, ts, total, actions, |ts|);
    }
  }

  /* ---- repeated forced reclaims ---- */

  predicate Known(targets: map<string, int>, vms: seq<VM>) {
    forall i :: 0 <= i < |vms| ==> vms[i].id in targets
  }

  /** The guest memory the hypervisors aim at, as the controller reads it. */
  function Aims(targets: map<string, int>, vms: seq<VM>): (s: seq<int>)
    requires Known(targets, vms)
    ensures |s| == |vms| && forall i :: 0 <= i < |vms| ==> s[i] == Clamp(targets[vms[i].id], 0, vms[i].size)
  {
    seq(|vms|, i requires 0 <= i < |vms| => Clamp(targets[vms[i].id], 0, vms[i].size))
  }

  /** What a forced request aims for on an unstressed host. */
  function ForcedTotal(c: Config, req: Request, s: Sample, p: Pressure): int {
    Max(AutomaticTarget(p, c, s, 0), if req.bytes > 0 || req.holdFor > 0 then req.bytes else 0)
  }

  lemma ForcedTotalIsTotal(c: Config, req: Request, now: int, s: Sample, p: Pressure, hold: Option<Hold>,
                           ts: seq<Tracked>)
    requires req.force && !req.dryRun && !s.stressed
    ensures Total(c, req, s, p, NextHold(hold, req, now), ts) == ForcedTotal(c, req, s, p)
  {}

  /** The same sample again does not move the pressure state. */
  lemma PressureSettles(p: Pressure, c: Config, s: Sample)
    requires Sane(c)
    ensures NextPressure(NextPressure(p, c, s), c, s) == NextPressure(p, c, s)
  {}

  predicate NoErrors(actions: seq<Action>) {
    forall i :: 0 <= i < |actions| ==> !actions[i].status.Error?
  }

  lemma AimsAre(ts: seq<Tracked>, before: map<string, int>, after: map<string, int>, c: Config, req: Request, total: int,
                last: map<string, int>, now: int, actions: seq<Action>)
    requires !req.dryRun && |actions| == |ts| && Reported(c, req, ts, total, last, now, actions)
    requires NoErrors(actions) && Standing(after, actions)
    requires forall t :: t in ts ==> t.vm.id in before && t.current == Clamp(before[t.vm.id], 0, t.vm.size)
    ensures Known(before, VMs(ts)) && Currents(ts) == Aims(before, VMs(ts))
    ensures Known(after, VMs(ts)) && Targets(actions) == Aims(after, VMs(ts))
  {
    hide PlannedTarget, Applied, ProtectedFloor;
    forall i | 0 <= i < |ts|
      ensures ts[i].vm.id in before && ts[i].current == Clamp(before[ts[i].vm.id], 0, ts[i].vm.size)
      ensures ts[i].vm.id in after && actions[i].target == Clamp(after[ts[i].vm.id], 0, ts[i].vm.size)
    {
      assert ts[i] in ts;
      assert Decided(c, req, ts[i], PlannedTarget(c, VMs(ts), total, i),
                     Cooling(c, req, last, ts[i].vm.id, now), actions[i]);
    }
  }

  /** One forced reclaim. When every hypervisor answers and obeys, the targets they are left with are one
      round of the convergence argument. */
  method ForceOnce(k: Controller, req: Request, now: int, s: Sample, vms: seq<VM>) returns (ok: bool, ghost total: int)
    requires Sane(k.config) && DistinctVMs(vms) && req.force && !req.dryRun
    modifies k, k.hypervisors
    ensures k.pressure == NextPressure(old(k.pressure), k.config, s)
    ensures !s.stressed ==> total == ForcedTotal(k.config, req, s, k.pressure)
    ensures ok ==>
      && Known(old(k.hypervisors.targets), vms) && Known(k.hypervisors.targets, vms)
      && FleetAfter(k.config, vms, total, 1, Aims(old(k.hypervisors.targets), vms), Aims(k.hypervisors.targets, vms))
  {
    hide Reported, Standing, Stamped, DistinctVMs, FleetAfter, AutomaticTarget, WithinLimits;
    ghost var before, last, hold := k.hypervisors.targets, k.lastApplied, k.hold;
    ghost var ts;
    var r;
    r, ts := k.Reconcile(req, now, Some(s), Some(vms));
    total := Total(k.config, req, s, k.pressure, k.hold, ts);
    if !s.stressed {
      ForcedTotalIsTotal(k.config, req, now, s, k.pressure, hold, ts);
    }
    ok := r.value.skipped == [] && NoErrors(r.value.actions);
    if ok {
      AimsAre(ts, before, k.hypervisors.targets, k.config, req, total, last, now, r.value.actions);
      ForcedRound(k.config, req, ts, total, last, now, r.value.actions);
    }
  }

  /** Every VM within the minimum adjustment of its plan, and all of them together within that much per VM
      of the total. */
  ghost predicate Settled(c: Config, vms: seq<VM>, total: int, aims: seq<int>) {
    && |aims| == |vms|
    && (forall i :: 0 <= i < |vms| ==> Abs(PlannedTarget(c, vms, total, i) - aims[i]) < c.minAdjust)
    && Abs(Reclaimed(vms, aims, |vms|) - Clamp(total, 0, Headroom(Candidates(c, vms), |vms|)))
         <= |vms| * (c.minAdjust - 1)
  }

  predicate Same(totals: seq<int>) {
    forall i :: 0 <= i < |totals| ==> totals[i] == totals[0]
  }

  /** Bounded convergence of the controller: one forced reclaim at each of the given times, with the
      same request, sample and VMs. If every hypervisor answers and obeys each time and the rounds
      are enough for a VM to cross its whole memory, the targets the hypervisors are left with have
      settled at the plan. The total is the same every time unless the host is stressed. */
  method ForceRepeatedly(k: Controller, req: Request, times: seq<int>, s: Sample, vms: seq<VM>)
    returns (ok: bool, ghost totals: seq<int>)
    requires Sane(k.config) && DistinctVMs(vms) && req.force && !req.dryRun && times != []
    modifies k, k.hypervisors
    ensures ok ==> Known(old(k.hypervisors.targets), vms) && Known(k.hypervisors.targets, vms) && |totals| == |times|
    ensures ok && !s.stressed ==> Same(totals)
    ensures ok && Same(totals) ==>
      FleetAfter(k.config, vms, totals[0], |times|,
                 Aims(old(k.hypervisors.targets), vms), Aims(k.hypervisors.targets, vms))
    ensures ok && Same(totals) && Exact(Candidates(k.config, vms), totals[0])
            && (forall i :: 0 <= i < |vms| ==> vms[i].size <= |times| * k.config.maxStep) ==>
      Settled(k.config, vms, totals[0], Aims(k.hypervisors.targets, vms))
  {
    hide FleetAfter, DistinctVMs, NextPressure, ForcedTotal, Settled, Exact;
    ghost var first := NextPressure(k.pressure, k.config, s);
    PressureSettles(k.pressure, k.config, s);
    ghost var total;
    ok, total := ForceOnce(k, req, times[0], s, vms);
    totals := [total];
    var i := 1;
    while ok && i < |times|
      invariant 1 <= i <= |times| && |totals| == i && k.pressure == first
      invariant !s.stressed ==> forall j :: 0 <= j < i ==> totals[j] == ForcedTotal(k.config, req, s, first)
      invariant ok ==> Known(old(k.hypervisors.targets), vms) && Known(k.hypervisors.targets, vms)
      invariant ok && Same(totals) ==>
        FleetAfter(k.config, vms, totals[0], i, Aims(old(k.hypervisors.targets), vms), Aims(k.hypervisors.targets, vms))
      decreases |times| - i, ok
    {
      ghost var before, earlier := k.hypervisors.targets, totals;
      ok, total := ForceOnce(k, req, times[i], s, vms);
      totals := totals + [total];
      if ok && Same(totals) {
        assert total == totals[i] == totals[0];
        assert Same(earlier) by {
          assert forall j :: 0 <= j < i ==> earlier[j] == totals[j];
        }
        FleetStep(k.config, vms, totals[0], i, Aims(old(k.hypervisors.targets), vms), Aims(before, vms),
                  Aims(k.hypervisors.targets, vms));
      }
      i := i + 1;
    }
    if ok && Same(totals) && Exact(Candidates(k.config, vms), totals[0])
       && (forall i :: 0 <= i < |vms| ==> vms[i].size <= |times| * k.config.maxStep)
    {
      FleetSettles(k.config, vms, totals[0], |times|,
                   Aims(old(k.hypervisors.targets), vms), Aims(k.hypervisors.targets, vms));
    }
  }

  lemma FleetSettles(c: Config, vms: seq<VM>, total: int, n: nat, start: seq<int>, end: seq<int>)
    requires Sane(c) && n > 0 && FleetAfter(c, vms, total, n, start, end)
    requires Exact(Candidates(c, vms), total)
    requires forall i :: 0 <= i < |vms| ==> 0 <= start[i] <= vms[i].size <= n * c.maxStep
    ensures Settled(c, vms, total, end)
  {
    hide PlannedTarget, Rounds, Exact;
    FleetConverges(c, vms, total, n, start, end);
  }
}
