/** The idle countdown: an instance is put into standby only after a full idle timeout, the
    deadline is exactly the later of that and the hold, and a restart resumes it. */
module StandbyCountdown {
  import opened ConnectionClassifier
  import opened StandbyState
  import opened StandbyWorld
  import opened StandbyGrounds

  /** The deadline is that of the idle start, and a request came after a full timeout. */
  ghost predicate Due(s: State, clock: int) {
    && (s.next.Some? ==> s.idleSince.Some? && s.next.value == Later(s.idleSince.value + s.timeout, s.hold))
    && (s.requested ==> s.idleSince.Some? && clock >= s.idleSince.value + s.timeout)
  }

  /** The refresh takes over a new timeout and then stops at an address that does not parse. */
  predicate Retimes(s: State, i: Instance) {
    && !s.executing && Eligible(i) && i.autoStandby.Compiled? && i.ip.Malformed?
    && s.timeout != i.autoStandby.policy.timeout
  }

  /** The refresh strands a countdown: under the new timeout the deadline that is set would be another,
      or the request that stands came too early. */
  predicate Strands(s: State, i: Instance, clock: int) {
    Retimes(s, i) &&
    (|| (s.next.Some? && (s.idleSince.None? || s.next.value != Later(s.idleSince.value + i.autoStandby.policy.timeout, s.hold)))
     || (s.requested && (s.idleSince.None? || clock < s.idleSince.value + i.autoStandby.policy.timeout)))
  }

  /** A refresh keeps every deadline and request due if and only if it does not strand one. */
  lemma RefreshDueIff(s: State, i: Instance, conns: seq<Connection>, now: int, clock: int)
    requires Due(s, clock)
    ensures Due(Refresh(s, i, conns, now), clock) <==> !Strands(s, i, clock)
  {
    hide Matching, RefreshIdle;
    if !s.executing && Eligible(i) && i.autoStandby.Compiled? && i.ip.Parsed? {
      var p := i.autoStandby.policy;
      RefreshIdleDue(s.(ip := i.ip, policy := Some(p), timeout := p.timeout, requested := false, active := {}), i.runtime, now, clock);
    }
  }

  lemma RefreshIdleDue(s: State, runtime: Option<Runtime>, now: int, clock: int)
    requires !s.requested
    ensures Due(RefreshIdle(s, runtime, now), clock)
  {}

  lemma OnEventDue(s: State, e: Event, at: int, clock: int)
    requires Due(s, clock)
    ensures Due(OnEvent(s, e, at), clock)
  {
    hide Inbound, Active;
  }

  lemma TimerDue(s: State, conns: Option<seq<Connection>>, now: int, clock: int)
    requires Due(s, clock)
    ensures !s.requested ==> Due(Confirmed(s, Confirm(s, conns), now), clock)
    ensures Due(LocalDeadline(s, clock, s), clock)
    ensures Due(LocalDeadline(s, clock, Request(s)), clock)
  {
    hide Matching;
  }

  lemma ReconcileDue(s: State, conns: Option<seq<Connection>>, now: int, clock: int)
    requires Due(s, clock)
    ensures Due(Reconcile(s, conns, now), clock)
  {
    hide Matching;
  }

  lemma WorkerDue(s: State, now: int, clock: int)
    requires Due(s, clock)
    ensures Due(Claim(s), clock) && Due(Failed(s, now), clock) && Due(Succeeded(s), clock)
    ensures Due(s.(executing := false), clock) && Due(s.(next := None, reconcile := false), clock)
  {}

  lemma HoldDue(s: State, timeout: int, now: int, clock: int)
    requires Due(s, clock) && (s.policy.None? ==> s.next.None?)
    ensures Due(Hold(s, timeout, now), clock)
  {}

  /* ---- runs ---- */

  ghost predicate DueAt(s: World, id: Id) {
    id in s.states ==> Due(s.states[id], s.clock)
  }

  /** While the timer handler is between its sections its instance is not requested: only
      the handler itself makes requests. */
  ghost predicate Unasked(s: World) {
    !s.loop.Waiting? && s.loop.id in s.states ==> !s.states[s.loop.id].requested
  }

  lemma EnsureDue(s: World, id: Id)
    requires DueAt(s, id)
    ensures Due(Ensure(s, id), s.clock)
  {}

  lemma LocalHoldDue(s: World, i: Instance, now: int)
    requires AllHeld(s) && DueAt(s, i.id)
    ensures LocalHold(s, i, now).Some? ==> Due(LocalHold(s, i, now).value, s.clock)
  {
    hide Due, Hold;
    EnsureDue(s, i.id);
    EnsureHeld(s, i.id);
    HoldDue(Ensure(s, i.id), Ensure(s, i.id).timeout, now, s.clock);
    if i.autoStandby.Compiled? {
      HoldDue(Ensure(s, i.id), i.autoStandby.policy.timeout, now, s.clock);
    }
  }

  predicate StrandsAt(s: World, e: Step, id: Id) {
    e.RefreshInstance? && e.inst.id == id && Strands(Ensure(s, id), e.inst, s.clock)
  }

  lemma LocalDue(s: World, e: Step, id: Id)
    requires AllHeld(s) && DueAt(s, id) && Unasked(s) && Enabled(s, e) && !StrandsAt(s, e, id)
    ensures Local(s, e, id).Some? ==> Due(Local(s, e, id).value, s.clock)
  {
    hide Due, Held, Strands, Refresh, OnEvent, LocalHold, Confirm, Confirmed, Reconcile, Claim, Failed, Succeeded, LocalDeadline,
         Request;
    EnsureDue(s, id);
    var st := Ensure(s, id);
    match e
    case PlaceHold(i, now) =>
      if i.id == id {
        LocalHoldDue(s, i, now);
      }
    case RefreshInstance(i, conns, now) =>
      if i.id == id {
        RefreshDueIff(st, i, conns, now, s.clock);
      }
    case Connect(event, at) => OnEventDue(st, event, at, s.clock);
    case ReconcileActive(_, conns, now) => ReconcileDue(st, conns, now, s.clock);
    case Fire(_) => TimerDue(st, None, 0, s.clock);
    case Check => TimerDue(st, s.loop.conns, s.clock, s.clock);
    case Ask => TimerDue(st, None, 0, s.clock);
    case Take(_) => WorkerDue(st, s.clock, s.clock);
    case Return(_, _) => WorkerDue(st, s.clock, s.clock);
    case Done(_) => WorkerDue(st, s.clock, s.clock);
    case Stop => WorkerDue(st, s.clock, s.clock);
    case _ =>
  }

  lemma LaterDue(st: State, clock: int, to: int)
    requires Due(st, clock) && clock <= to
    ensures Due(st, to)
  {}

  lemma StrandingShows(s: World, e: Step, id: Id)
    requires DueAt(s, id) && StrandsAt(s, e, id)
    ensures Local(s, e, id).Some? && !Due(Local(s, e, id).value, s.clock)
  {
    hide Due, Strands, Refresh;
    EnsureDue(s, id);
    RefreshDueIff(Ensure(s, id), e.inst, e.seen, e.now, s.clock);
  }

  /** A step keeps an instance's deadline and request due if and only if it does not strand them. */
  lemma NextDue(s: World, e: Step, r: World, id: Id)
    requires AllHeld(s) && DueAt(s, id) && Unasked(s) && Next(s, e, r)
    ensures DueAt(r, id) <==> !StrandsAt(s, e, id)
  {
    hide Due, Local, NextStates, NextLoop, NextWorkers, Creates, AllHeld, Strands;
    StatesAre(s, e, id);
    if StrandsAt(s, e, id) {
      StrandingShows(s, e, id);
    } else {
      LocalDue(s, e, id);
      if id in r.states {
        LaterDue(r.states[id], s.clock, r.clock);
      }
    }
  }

  lemma NextUnasked(s: World, e: Step, r: World)
    requires AllHeld(s) && Unasked(s) && Next(s, e, r)
    ensures Unasked(r)
  {
    hide Local, NextStates, NextWorkers, Creates, AllHeld, Confirm, HitAt;
    if !r.loop.Waiting? && r.loop.id in r.states && r.states[r.loop.id].requested {
      var id := r.loop.id;
      StatesAre(s, e, id);
      RequestComesFrom(s, e, id);
      LoopStays(s, e);
      assert false;
    }
  }

  /** The loop is on an instance because it was, or because that instance's timer passed
      its guard just now. */
  lemma LoopStays(s: World, e: Step)
    requires Enabled(s, e) && !NextLoop(s, e).Waiting?
    ensures !e.Ask?
    ensures (!s.loop.Waiting? && s.loop.id == NextLoop(s, e).id) || (e.Fire? && GoesOn(s, NextLoop(s, e).id))
  {
    hide Confirm, GoesOn;
  }

  lemma {:induction false} RunDue(tr: seq<World>, es: seq<Step>, j: nat, id: Id)
    requires IsRun(tr, es) && j <= |es|
    requires forall i :: 0 <= i < j ==> !StrandsAt(tr[i], es[i], id)
    ensures DueAt(tr[j], id) && Unasked(tr[j])
    decreases j
  {
    hide Next, StrandsAt, Due;
    if j > 0 {
      RunDue(tr, es, j - 1, id);
      RunHeld(tr, es, j - 1);
      assert Next(tr[j - 1], es[j - 1], tr[j]);
      assert !StrandsAt(tr[j - 1], es[j - 1], id);
      NextDue(tr[j - 1], es[j - 1], tr[j], id);
      NextUnasked(tr[j - 1], es[j - 1], tr[j]);
    }
  }

  /** A full countdown, over every run in which no refresh of the instance strands its countdown:
      whenever a worker starts StandbyInstance for it, its idle time began at least one idle timeout
      ago, and while a deadline stands it is exactly the later of that moment and the hold. */
  lemma FullCountdown(tr: seq<World>, es: seq<Step>, j: nat, id: Id)
    requires IsRun(tr, es) && j <= |es| && id in tr[j].states
    requires forall i :: 0 <= i < j ==> !StrandsAt(tr[i], es[i], id)
    ensures var st := tr[j].states[id];
      && (j < |es| && Starts(tr[j], es[j], id) ==> st.idleSince.Some? && tr[j].clock >= st.idleSince.value + st.timeout)
      && (st.next.Some? ==> st.idleSince.Some? && st.next.value == Later(st.idleSince.value + st.timeout, st.hold))
  {
    hide Next, StrandsAt;
    RunDue(tr, es, j, id);
  }

  /* ---- restart ---- */

  /** A restart resumes the countdown: a new state, seeded with the runtime that mirrors the
      old one and a quiet snapshot, has the old idle start, the old activity time and, when
      nothing was held, the old deadline. */
  lemma RestartResumes(s: State, incarnation: nat, i: Instance, conns: seq<Connection>, now: int, clock: int)
    requires Due(s, clock) && s.policy.Some? && s.idleSince.Some? && s.timeout == s.policy.value.timeout > 0
    requires Eligible(i) && i.autoStandby == Compiled(s.policy.value) && i.ip == s.ip && s.ip.Parsed?
    requires i.runtime == Some(Runtime(s.idleSince, s.lastInbound))
    requires Matching(i.ip.addr, s.policy.value, conns) == {}
    ensures var r := Refresh(Fresh(incarnation), i, conns, now);
      && r.idleSince == s.idleSince && r.lastInbound == s.lastInbound
      && r.next == Some(s.idleSince.value + s.timeout)
      && (s.next.Some? && s.hold.None? ==> r.next == s.next)
  {
    hide Matching;
  }

  /** With live flows it is dropped instead, and the reconcile loop takes over. */
  lemma RestartFindsTraffic(incarnation: nat, i: Instance, conns: seq<Connection>, now: int)
    requires Eligible(i) && i.autoStandby.Compiled? && i.ip.Parsed?
    requires Matching(i.ip.addr, i.autoStandby.policy, conns) != {}
    ensures var r := Refresh(Fresh(incarnation), i, conns, now);
      r.next.None? && r.idleSince.None? && r.reconcile && r.active == Matching(i.ip.addr, i.autoStandby.policy, conns)
  {
    hide Matching;
  }
}
