/** No instance is forgotten: until the loop stops, every state with a policy has something
    that will bring it up again. */
module StandbyTracking {
  import opened ConnectionClassifier
  import opened StandbyState
  import opened StandbyWorld

  /** Until the loop stops, the instance's state is tracked. */
  ghost predicate TrackedAt(s: World, id: Id) {
    !s.stopped && id in s.states ==> Tracked(s.states[id])
  }

  /** The step installs a policy on a state of `id` without one, for an address that does not parse. */
  predicate Forgets(s: World, e: Step, id: Id) {
    e.RefreshInstance? && e.inst.id == id && LosesTrack(Ensure(s, id), e.inst)
  }

  lemma EnsureTracked(s: World, id: Id)
    requires TrackedAt(s, id) && !s.stopped
    ensures Tracked(Ensure(s, id))
  {}

  lemma DeadlineTracks(st: State, clock: int)
    requires Held(st, clock) && Tracked(st)
    ensures Tracked(LocalDeadline(st, clock, st)) && Tracked(LocalDeadline(st, clock, Request(st)))
  {
    hide Held, Tracked, ArmTimer, Request;
    if MayRequest(st) {
      TimerTracks(st, clock);
    }
  }

  lemma LocalHoldTracks(s: World, i: Instance, now: int)
    requires AllHeld(s) && TrackedAt(s, i.id) && !s.stopped
    ensures LocalHold(s, i, now).Some? ==> Tracked(LocalHold(s, i, now).value)
  {
    hide Held, Tracked, Hold;
    EnsureHeld(s, i.id);
    EnsureTracked(s, i.id);
    HoldTracks(Ensure(s, i.id), Ensure(s, i.id).timeout, now, s.clock);
    if i.autoStandby.Compiled? {
      HoldTracks(Ensure(s, i.id), i.autoStandby.policy.timeout, now, s.clock);
    }
  }

  lemma LocalTracks(s: World, e: Step, id: Id)
    requires AllHeld(s) && TrackedAt(s, id) && !s.stopped && Enabled(s, e) && !e.Stop? && !Forgets(s, e, id)
    ensures Local(s, e, id).Some? ==> Tracked(Local(s, e, id).value)
  {
    hide Held, Tracked, LosesTrack, Refresh, OnEvent, LocalHold, Confirm, Confirmed, Reconcile, Claim, Failed, Succeeded,
         LocalDeadline, Request;
    EnsureHeld(s, id);
    EnsureTracked(s, id);
    var st := Ensure(s, id);
    match e
    case PlaceHold(i, now) =>
      if i.id == id {
        LocalHoldTracks(s, i, now);
      }
    case RefreshInstance(i, conns, now) =>
      if i.id == id {
        RefreshTracks(st, i, conns, now, s.clock);
      }
    case Connect(event, at) => OnEventTracks(st, event, at, s.clock);
    case ReconcileActive(_, conns, now) => ReconcileTracks(st, conns, now, s.clock);
    case Fire(_) => DeadlineTracks(st, s.clock);
    case Check => ConfirmedTracks(st, s.loop.conns, s.clock, s.clock);
    case Ask => DeadlineTracks(st, s.clock);
    case Take(_) => WorkerTracks(st, s.clock, s.clock);
    case Return(_, _) => WorkerTracks(st, s.clock, s.clock);
    case Done(_) => WorkerTracks(st, s.clock, s.clock);
    case _ =>
  }

  lemma ForgettingShows(s: World, e: Step, id: Id)
    requires AllHeld(s) && TrackedAt(s, id) && !s.stopped && Enabled(s, e) && Forgets(s, e, id)
    ensures Local(s, e, id).Some? && !Tracked(Local(s, e, id).value)
  {
    hide Held, Tracked, LosesTrack, Refresh;
    EnsureHeld(s, id);
    EnsureTracked(s, id);
    RefreshTracks(Ensure(s, id), e.inst, e.seen, e.now, s.clock);
  }

  /** One step keeps track of an instance if and only if it is not a forgetting refresh of it:
      the condition is exact and reads only the world and the instance before the step. */
  lemma NextTracks(s: World, e: Step, r: World, id: Id)
    requires AllHeld(s) && TrackedAt(s, id) && !s.stopped && Next(s, e, r)
    ensures TrackedAt(r, id) <==> !Forgets(s, e, id)
  {
    hide Tracked, LosesTrack, Local, NextStates, NextLoop, NextWorkers, Creates, AllHeld;
    StatesAre(s, e, id);
    if Forgets(s, e, id) {
      ForgettingShows(s, e, id);
    } else if !r.stopped {
      LocalTracks(s, e, id);
    }
  }

  lemma {:induction false} RunTracks(tr: seq<World>, es: seq<Step>, j: nat, id: Id)
    requires IsRun(tr, es) && j <= |es|
    requires forall i :: 0 <= i < j ==> !Forgets(tr[i], es[i], id)
    ensures TrackedAt(tr[j], id)
    decreases j
  {
    hide Forgets, NextStates, NextLoop, NextWorkers, Creates, Enabled, Tracked;
    if j > 0 {
      RunTracks(tr, es, j - 1, id);
      RunHeld(tr, es, j - 1);
      assert Next(tr[j - 1], es[j - 1], tr[j]);
      if !tr[j - 1].stopped {
        assert !Forgets(tr[j - 1], es[j - 1], id);
        NextTracks(tr[j - 1], es[j - 1], tr[j], id);
      }
    }
  }

  /** No forgotten instance, over every run without such a refresh of it: until the loop stops, a
      state with a policy is active with its reconcile timer set, counts down to a deadline,
      or has a standby requested; a deadline is never before the hold. */
  lemma NoForgottenInstance(tr: seq<World>, es: seq<Step>, j: nat, id: Id)
    requires IsRun(tr, es) && j <= |es| && !tr[j].stopped
    requires forall i :: 0 <= i < j ==> !Forgets(tr[i], es[i], id)
    requires id in tr[j].states && tr[j].states[id].policy.Some?
    ensures var st := tr[j].states[id];
      || (st.active != {} && st.reconcile)
      || (st.next.Some? && (st.hold.Some? ==> st.next.value >= st.hold.value))
      || st.requested
  {
    hide Next, Forgets;
    RunTracks(tr, es, j, id);
    RunHeld(tr, es, j);
  }

  /** A forgotten instance is found again by exactly those refreshes that reach its snapshot or clear it: its
      address parses, or it is no longer eligible. */
  lemma RefreshFindsAgain(s: State, i: Instance, conns: seq<Connection>, now: int, clock: int)
    requires Held(s, clock) && ValidInstance(i) && !s.executing
    requires s.policy.Some? && s.active == {} && s.next.None? && !s.requested
    ensures Tracked(Refresh(s, i, conns, now)) <==> !Eligible(i) || (i.autoStandby.Compiled? && i.ip.Parsed?)
  {
    hide Matching;
  }
}
