/** The controller's state object as the source keeps it: fields updated in place by the
    locked sections of lib/autostandby/controller.go. Each method is proved to do what the
    function of the same section in module StandbyState says. */
module StandbyController {
  import opened ConnectionClassifier
  import opened StandbyState

  /** A runtime write handed out by a locked section, to be persisted after the unlock. */
  datatype Staged = Staged(revision: nat, runtime: Option<Runtime>)

  class ControllerState {
    var ip: IP
    var policy: Option<Policy>
    var active: set<Key>
    var timeout: int
    var idleSince: Option<int>
    var lastInbound: Option<int>
    var next: Option<int>
    var hold: Option<int>
    var reconcile: bool
    var requested: bool
    var executing: bool
    var revision: nat
    const incarnation: nat

    function View(): State
      reads this
    {
      State(ip, policy, active, timeout, idleSince, lastInbound, next, hold, reconcile, requested, executing, revision, incarnation)
    }

    /** The write carries this state's newest revision and its timestamps. */
    ghost predicate Mirrors(w: Staged)
      reads this
    {
      && w.revision == revision
      && (w.runtime == Some(Runtime(idleSince, lastInbound)) || (w.runtime.None? && idleSince.None? && lastInbound.None?))
    }

    constructor (incarnation: nat)
      ensures View() == Fresh(incarnation)
    {
      ip, policy, active, timeout := Missing, None, {}, 0;
      idleSince, lastInbound, next, hold := None, None, None, None;
      reconcile, requested, executing, revision := false, false, false, 0;
      this.incarnation := incarnation;
    }

    method ArmTimerLocked(now: int) returns (delay: int)
      modifies this
      ensures View() == ArmTimer(old(View()))
      ensures next.Some? ==> delay >= 0 && now + delay >= next.value && (delay > 0 ==> now + delay == next.value)
    {
      delay := 0;
      if idleSince.None? || timeout <= 0 {
        CancelTimerLocked();
        return;
      }
      var when := idleSince.value + timeout;
      if hold.Some? && hold.value > when {
        when := hold.value;
      }
      delay := when - now;
      if delay < 0 {
        delay := 0;
      }
      CancelTimerLocked();
      next := Some(when);
    }

    method CancelTimerLocked()
      modifies this
      ensures View() == CancelTimer(old(View()))
    {
      next := None;
    }

    method ArmReconcileLocked()
      modifies this
      ensures View() == ArmReconcile(old(View()))
    {
      if active == {} {
        CancelReconcileLocked();
        return;
      }
      CancelReconcileLocked();
      reconcile := true;
    }

    method CancelReconcileLocked()
      modifies this
      ensures View() == old(View()).(reconcile := false)
    {
      reconcile := false;
    }

    method ClearStateLocked()
      modifies this
      ensures View() == Clear(old(View()))
    {
      policy, active, timeout := None, {}, 0;
      idleSince, lastInbound, next, hold := None, None, None, None;
      requested := false;
      CancelTimerLocked();
      CancelReconcileLocked();
    }

    method StageLocked(runtime: Option<Runtime>) returns (w: Staged)
      modifies this
      ensures View() == Stage(old(View())) && w == Staged(revision, runtime)
    {
      revision := revision + 1;
      w := Staged(revision, runtime);
    }

    /** refreshInstanceLocked. */
    method RefreshInstanceLocked(inst: Instance, conns: seq<Connection>, now: int) returns (w: Option<Staged>)
      modifies this
      ensures View() == Refresh(old(View()), inst, conns, now)
      ensures w.Some? <==> revision != old(revision)
      ensures w.Some? ==> Mirrors(w.value)
    {
      hide Matching, RefreshBusy, RefreshIdle;
      w := None;
      if executing {
        return;
      }
      ip := inst.ip;
      if !Eligible(inst) {
        var had := inst.runtime.Some? || idleSince.Some? || lastInbound.Some?;
        ClearStateLocked();
        if had {
          var s := StageLocked(None);
          w := Some(s);
        }
        return;
      }
      if inst.autoStandby.Invalid? {
        return;
      }
      policy, timeout := Some(inst.autoStandby.policy), inst.autoStandby.policy.timeout;
      var found := MatchingConnections(Address(inst.ip), inst.autoStandby.policy, conns);
      if found.None? {
        return;
      }
      requested := false;
      active := found.value;
      if active != {} {
        w := RefreshActive(inst.runtime, now);
      } else {
        w := RefreshQuiet(inst.runtime, now);
      }
    }

    method RefreshActive(runtime: Option<Runtime>, now: int) returns (w: Option<Staged>)
      modifies this
      ensures View() == RefreshBusy(old(View()), runtime, old(active), now)
      ensures w.Some? && Mirrors(w.value) && revision == old(revision) + 1
    {
      idleSince := None;
      if runtime.Some? && runtime.value.lastInbound.Some? &&
         (lastInbound.None? || runtime.value.lastInbound.value > lastInbound.value) {
        lastInbound := runtime.value.lastInbound;
      } else if lastInbound.None? {
        lastInbound := Some(now);
      }
      CancelTimerLocked();
      ArmReconcileLocked();
      var s := StageLocked(Some(Runtime(None, lastInbound)));
      w := Some(s);
    }

    method RefreshQuiet(runtime: Option<Runtime>, now: int) returns (w: Option<Staged>)
      modifies this
      ensures View() == RefreshIdle(old(View()), runtime, now)
      ensures w.Some? <==> revision != old(revision)
      ensures w.Some? ==> Mirrors(w.value)
    {
      w := None;
      if runtime.Some? && runtime.value.idleSince.Some? {
        var stored := runtime.value.idleSince.value;
        var stale := idleSince.Some? && idleSince.value > stored;
        if idleSince.None? && lastInbound.Some? && !(lastInbound.value < stored) {
          idleSince := Some(now);
          stale := true;
        }
        if stale {
          var s := StageLocked(Some(Runtime(idleSince, lastInbound)));
          w := Some(s);
        } else {
          idleSince, lastInbound := Some(stored), runtime.value.lastInbound;
        }
      } else {
        idleSince := Some(now);
        if runtime.Some? {
          lastInbound := runtime.value.lastInbound;
        } else {
          lastInbound := None;
        }
        var s := StageLocked(Some(Runtime(idleSince, lastInbound)));
        w := Some(s);
      }
      var _ := ArmTimerLocked(now);
    }

    /** The last flow is gone: start the countdown. */
    method StartCountdown(at: int) returns (w: Option<Staged>)
      modifies this
      ensures View() == TurnIdle(old(View()), at)
      ensures w.Some? && Mirrors(w.value) && revision == old(revision) + 1
    {
      active := {};
      idleSince := Some(at);
      requested := false;
      CancelReconcileLocked();
      var _ := ArmTimerLocked(at);
      var s := StageLocked(Some(Runtime(idleSince, lastInbound)));
      w := Some(s);
    }

    /** The body of handleConnectionEvent's loop. */
    method HandleConnectionEvent(e: Event, at: int) returns (w: Option<Staged>)
      modifies this
      ensures View() == OnEvent(old(View()), e, at)
      ensures w.Some? <==> revision != old(revision)
      ensures w.Some? ==> Mirrors(w.value)
    {
      w := None;
      if policy.None? {
        return;
      }
      var key := e.conn.key;
      var matches := MatchesForEvent(Address(ip), policy.value, e.conn);
      if e.Seen? {
        if !matches {
          return;
        }
        if Active(e.conn.tcp) {
          active := active + {key};
          idleSince := None;
          lastInbound := Some(at);
          requested := false;
          CancelTimerLocked();
          ArmReconcileLocked();
          var s := StageLocked(Some(Runtime(None, lastInbound)));
          w := Some(s);
          return;
        }
      }
      if key !in active {
        return;
      }
      active := active - {key};
      if active != {} {
        ArmReconcileLocked();
        return;
      }
      w := StartCountdown(at);
    }

    /** HoldStandby on this state, once it is known not to execute and under which timeout. */
    method HoldStandby(idleTimeout: int, now: int) returns (until: int)
      modifies this
      ensures View() == Hold(old(View()), idleTimeout, now) && until == now + idleTimeout
    {
      until := now + idleTimeout;
      hold := Some(until);
      requested := false;
      if policy.Some? {
        var _ := ArmTimerLocked(now);
      }
    }

    /** standbyDeadlineElapsedLocked. */
    method DeadlineElapsedLocked(now: int) returns (r: bool)
      modifies this
      ensures r == Elapsed(old(View()), now)
      ensures View() == if r then old(View()) else ArmTimer(old(View()))
    {
      if next.None? || now < next.value {
        var _ := ArmTimerLocked(now);
        return false;
      }
      return true;
    }

    /** confirmIdleBeforeStandby after the snapshot. */
    method ConfirmIdle(conns: Option<seq<Connection>>, now: int) returns (r: bool, w: Option<Staged>)
      modifies this
      ensures r <==> Confirm(old(View()), conns).Quiet?
      ensures View() == Confirmed(old(View()), Confirm(old(View()), conns), now)
      ensures w.Some? <==> revision != old(revision)
      ensures w.Some? ==> Mirrors(w.value)
    {
      hide Matching;
      r, w := false, None;
      if policy.None? || active != {} {
        return;
      }
      var found: Option<set<Key>> := None;
      if conns.Some? {
        found := MatchingConnections(Address(ip), policy.value, conns.value);
      }
      if found.None? {
        idleSince := Some(now);
        var _ := ArmTimerLocked(now);
        var s := StageLocked(Some(Runtime(idleSince, lastInbound)));
        w := Some(s);
        return;
      }
      if found.value == {} {
        return true, w;
      }
      active := found.value;
      idleSince := None;
      lastInbound := Some(now);
      CancelTimerLocked();
      ArmReconcileLocked();
      var s := StageLocked(Some(Runtime(None, lastInbound)));
      w := Some(s);
    }

    /** The last locked section of handleStandbyTimer. */
    method RequestStandby(now: int) returns (r: bool)
      modifies this
      ensures r <==> MayRequest(old(View())) && Elapsed(old(View()), now)
      ensures View() == if !MayRequest(old(View())) then old(View()) else if r then Request(old(View())) else ArmTimer(old(View()))
    {
      if policy.None? || active != {} || requested || executing {
        return false;
      }
      var elapsed := DeadlineElapsedLocked(now);
      if !elapsed {
        return false;
      }
      CancelTimerLocked();
      requested := true;
      return true;
    }

    /** The first locked section of executeStandby. */
    method ClaimStandby() returns (r: bool)
      modifies this
      ensures r <==> MayClaim(old(View()))
      ensures View() == Claim(old(View()))
    {
      if policy.None? || active != {} || !requested || executing {
        if active != {} {
          requested := false;
        }
        return false;
      }
      executing := true;
      return true;
    }

    /** executeStandby after a failed call. */
    method RecoverFromFailure(now: int) returns (w: Option<Staged>)
      modifies this
      ensures View() == Failed(old(View()), now)
      ensures w.Some? <==> revision != old(revision)
      ensures w.Some? ==> Mirrors(w.value)
    {
      w := None;
      requested := false;
      if active != {} {
        return;
      }
      idleSince := Some(now);
      var _ := ArmTimerLocked(now);
      var s := StageLocked(Some(Runtime(idleSince, lastInbound)));
      w := Some(s);
    }

    /** executeStandby after a successful call. */
    method ClearAfterStandby() returns (w: Option<Staged>)
      modifies this
      ensures View() == Succeeded(old(View()))
      ensures w.Some? && Mirrors(w.value) && revision == old(revision) + 1
    {
      ClearStateLocked();
      var s := StageLocked(None);
      w := Some(s);
    }

    /** handleActiveReconcile after the snapshot. */
    method ReconcileActive(conns: Option<seq<Connection>>, now: int) returns (w: Option<Staged>)
      modifies this
      ensures View() == Reconcile(old(View()), conns, now)
      ensures w.Some? <==> revision != old(revision)
      ensures w.Some? ==> Mirrors(w.value)
    {
      hide Matching;
      w := None;
      if conns.None? {
        if active != {} {
          ArmReconcileLocked();
        }
        return;
      }
      if policy.None? {
        return;
      }
      var found := MatchingConnections(Address(ip), policy.value, conns.value);
      if found.None? {
        if active != {} {
          ArmReconcileLocked();
        }
        return;
      }
      active := found.value;
      if active != {} {
        requested := false;
        ArmReconcileLocked();
        return;
      }
      w := StartCountdown(now);
    }
  }

  class Controller {
    var states: map<Id, ControllerState>

    /** No two instances share a state object. */
    ghost predicate Distinct()
      reads this
    {
      forall i, j :: i in states && j in states && states[i] == states[j] ==> i == j
    }

    /** handleConnectionEvent: every state sees the event once, in whatever order. */
    method HandleConnectionEvent(e: Event, at: int) returns (staged: map<Id, Staged>)
      requires Distinct()
      modifies states.Values
      ensures states == old(states)
      ensures forall id :: id in states ==> states[id].View() == OnEvent(old(states[id].View()), e, at)
      ensures forall id :: id in staged <==> id in states && states[id].revision != old(states[id].revision)
      ensures forall id :: id in staged ==> states[id].Mirrors(staged[id])
    {
      hide OnEvent;
      staged := map[];
      var todo := states.Keys;
      while todo != {}
        invariant states == old(states) && todo <= states.Keys
        invariant forall id :: id in todo ==> states[id].View() == old(states[id].View())
        invariant forall id :: id in states && id !in todo ==> states[id].View() == OnEvent(old(states[id].View()), e, at)
        invariant forall id :: id in staged <==> id in states && id !in todo && states[id].revision != old(states[id].revision)
        invariant forall id :: id in staged ==> states[id].Mirrors(staged[id])
        decreases todo
      {
        var id :| id in todo;
        todo := todo - {id};
        assert states[id] in states.Values;
        var w := states[id].HandleConnectionEvent(e, at);
        if w.Some? {
          staged := staged[id := w.value];
        }
      }
    }
  }
}
