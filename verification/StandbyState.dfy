/** One instance's auto-standby state and what each locked section of
    lib/autostandby/controller.go does to it. Times are integers on one clock. A spent or
    stopped time.Timer is not told apart from a set one: `next` is the armed deadline and
    `reconcile` says that the reconcile timer is set. */
module StandbyState {
  import opened ConnectionClassifier

  type Id = string

  /** The instance's IP field: empty, not an address, or an address. */
  datatype IP = Missing | Malformed | Parsed(addr: Addr)

  datatype Runtime = Runtime(idleSince: Option<int>, lastInbound: Option<int>)

  /** The policy field: absent, disabled, enabled but not compilable, or enabled. */
  datatype AutoStandby = Absent | Disabled | Invalid | Compiled(policy: Policy)

  datatype Instance = Instance(id: Id, running: bool, network: bool, ip: IP, vgpu: bool,
                               autoStandby: AutoStandby, runtime: Option<Runtime>)

  predicate Eligible(i: Instance) {
    i.running && i.network && !i.ip.Missing? && !i.vgpu && (i.autoStandby.Invalid? || i.autoStandby.Compiled?)
  }

  function Address(ip: IP): Option<Addr> { if ip.Parsed? then Some(ip.addr) else None }

  /** controllerState. `incarnation` tells the state objects of one instance apart. */
  datatype State = State(ip: IP, policy: Option<Policy>, active: set<Key>, timeout: int,
                         idleSince: Option<int>, lastInbound: Option<int>, next: Option<int>, hold: Option<int>,
                         reconcile: bool, requested: bool, executing: bool, revision: nat, incarnation: nat)

  function Fresh(incarnation: nat): State {
    State(Missing, None, {}, 0, None, None, None, None, false, false, false, 0, incarnation)
  }

  /** A policy compiles only with a positive timeout. */
  predicate ValidInstance(i: Instance) { i.autoStandby.Compiled? ==> i.autoStandby.policy.timeout > 0 }

  function Later(a: int, b: Option<int>): int { if b.Some? && b.value > a then b.value else a }

  function ArmTimer(s: State): State {
    if s.idleSince.None? || s.timeout <= 0 then s.(next := None)
    else s.(next := Some(Later(s.idleSince.value + s.timeout, s.hold)))
  }

  function CancelTimer(s: State): State { s.(next := None) }

  function ArmReconcile(s: State): State { s.(reconcile := s.active != {}) }

  function Clear(s: State): State {
    s.(policy := None, active := {}, timeout := 0, idleSince := None, lastInbound := None, next := None,
       hold := None, requested := false, reconcile := false)
  }

  function Stage(s: State): State { s.(revision := s.revision + 1) }

  /** The instance was found busy: the reconcile loop takes over. */
  function TurnBusy(s: State, active: set<Key>, lastInbound: Option<int>): State {
    Stage(ArmReconcile(CancelTimer(s.(active := active, idleSince := None, lastInbound := lastInbound))))
  }

  /** The instance was found idle at `at`: the countdown starts. */
  function TurnIdle(s: State, at: int): State {
    Stage(ArmTimer(s.(active := {}, idleSince := Some(at), requested := false, reconcile := false)))
  }

  /* ---- refreshInstanceLocked ---- */

  function Refresh(s: State, i: Instance, conns: seq<Connection>, now: int): State {
    if s.executing then s
    else
      var t := s.(ip := i.ip);
      if !Eligible(i) then
        var had := i.runtime.Some? || s.idleSince.Some? || s.lastInbound.Some?;
        if had then Stage(Clear(t)) else Clear(t)
      else if i.autoStandby.Invalid? then t
      else
        var p := i.autoStandby.policy;
        var t := t.(policy := Some(p), timeout := p.timeout);
        if !i.ip.Parsed? then t
        else
          var active := Matching(i.ip.addr, p, conns);
          var t := t.(requested := false, active := active);
          if active != {} then RefreshBusy(t, i.runtime, active, now) else RefreshIdle(t, i.runtime, now)
  }

  function RefreshBusy(s: State, runtime: Option<Runtime>, active: set<Key>, now: int): State {
    var stored := if runtime.Some? then runtime.value.lastInbound else None;
    var last :=
      if stored.Some? && (s.lastInbound.None? || stored.value > s.lastInbound.value) then stored
      else if s.lastInbound.None? then Some(now)
      else s.lastInbound;
    TurnBusy(s, active, last)
  }

  function RefreshIdle(s: State, runtime: Option<Runtime>, now: int): State {
    if runtime.Some? && runtime.value.idleSince.Some? then
      var stored := runtime.value.idleSince.value;
      var missed := s.idleSince.None? && s.lastInbound.Some? && s.lastInbound.value >= stored;
      if (s.idleSince.Some? && s.idleSince.value > stored) || missed then
        ArmTimer(Stage(if missed then s.(idleSince := Some(now)) else s))
      else
        ArmTimer(s.(idleSince := Some(stored), lastInbound := runtime.value.lastInbound))
    else
      ArmTimer(Stage(s.(idleSince := Some(now),
                        lastInbound := if runtime.Some? then runtime.value.lastInbound else None)))
  }

  /* ---- connection events ---- */

  /** The event is a live flow that keeps this instance awake. */
  predicate Hits(s: State, e: Event) {
    s.policy.Some? && e.Seen? && Active(e.conn.tcp) && s.ip.Parsed? && Inbound(s.ip.addr, s.policy.value, e.conn.key)
  }

  /** handleConnectionEvent, for one state. */
  function OnEvent(s: State, e: Event, at: int): State {
    if s.policy.None? then s
    else if Hits(s, e) then
      TurnBusy(s.(requested := false), s.active + {e.conn.key}, Some(at))
    else if e.Seen? && !(s.ip.Parsed? && Inbound(s.ip.addr, s.policy.value, e.conn.key)) then s
    else if e.conn.key !in s.active then s
    else
      var rest := s.active - {e.conn.key};
      if rest != {} then ArmReconcile(s.(active := rest)) else TurnIdle(s, at)
  }

  /* ---- HoldStandby ---- */

  /** HoldStandby on an existing or freshly made state that is not executing, under `timeout`. */
  function Hold(s: State, timeout: int, now: int): State {
    var t := s.(hold := Some(now + timeout), requested := false);
    if t.policy.Some? then ArmTimer(t) else t
  }

  /* ---- the standby timer ---- */

  /** The guard of both locked sections of handleStandbyTimer. */
  predicate MayRequest(s: State) { s.policy.Some? && s.active == {} && !s.requested && !s.executing }

  predicate Elapsed(s: State, now: int) { s.next.Some? && now >= s.next.value }

  /** What confirmIdleBeforeStandby makes of a snapshot, `None` for a failed one. */
  datatype Confirmation = Skip | Unconfirmed | Found(active: set<Key>) | Quiet

  function Confirm(s: State, conns: Option<seq<Connection>>): Confirmation {
    if s.policy.None? || s.active != {} then Skip
    else if conns.None? || !s.ip.Parsed? then Unconfirmed
    else
      var active := Matching(s.ip.addr, s.policy.value, conns.value);
      if active == {} then Quiet else Found(active)
  }

  /** The state after confirmIdleBeforeStandby at `now`. */
  function Confirmed(s: State, c: Confirmation, now: int): State {
    match c
    case Skip => s
    case Quiet => s
    case Unconfirmed => Stage(ArmTimer(s.(idleSince := Some(now))))
    case Found(active) => TurnBusy(s, active, Some(now))
  }

  /** The last locked section of handleStandbyTimer, once it has passed its guard. */
  function Request(s: State): State { CancelTimer(s).(requested := true) }

  /* ---- the worker ---- */

  predicate MayClaim(s: State) { s.policy.Some? && s.active == {} && s.requested && !s.executing }

  function Claim(s: State): State {
    if MayClaim(s) then s.(executing := true)
    else if s.active != {} then s.(requested := false)
    else s
  }

  function Failed(s: State, now: int): State {
    var t := s.(requested := false);
    if t.active != {} then t else Stage(ArmTimer(t.(idleSince := Some(now))))
  }

  function Succeeded(s: State): State { Stage(Clear(s)) }

  /* ---- handleActiveReconcile ---- */

  /** `None` for a snapshot that could not be read. */
  function Reconcile(s: State, conns: Option<seq<Connection>>, now: int): State {
    if conns.None? then (if s.active != {} then ArmReconcile(s) else s)
    else if s.policy.None? then s
    else if !s.ip.Parsed? then (if s.active != {} then ArmReconcile(s) else s)
    else
      var active := Matching(s.ip.addr, s.policy.value, conns.value);
      if active != {} then ArmReconcile(s.(active := active, requested := false)) else TurnIdle(s, now)
  }

  /* ---- the hold ---- */

  /** No deadline lies before the hold, nothing is requested before it, and only a state with
      a policy has a deadline, a request or active flows. */
  ghost predicate Held(s: State, clock: int) {
    && s.timeout >= 0 && (s.policy.None? <==> s.timeout == 0)
    && (s.policy.None? ==> s.next.None? && !s.requested && s.active == {})
    && (s.next.Some? && s.hold.Some? ==> s.next.value >= s.hold.value)
    && (s.requested && s.hold.Some? ==> clock >= s.hold.value)
  }

  /* ---- nothing forgotten ---- */

  /** Something will bring the instance up again: its reconcile timer while it has active
      flows, a deadline, or a standby request. */
  ghost predicate Tracked(s: State) {
    && (s.active != {} ==> s.reconcile)
    && (s.policy.Some? && s.active == {} ==> s.idleSince.Some?)
    && (s.policy.Some? ==> s.active != {} || s.next.Some? || s.requested)
  }

  /** The refresh that loses track: a policy is installed on a state without one, and
      the address it should watch does not parse. */
  predicate LosesTrack(s: State, i: Instance) {
    && !s.executing && Eligible(i) && i.autoStandby.Compiled?
    && i.ip.Malformed? && s.policy.None?
  }

  lemma ArmTimerHeld(s: State, clock: int)
    requires s.timeout >= 0 && (s.policy.None? <==> s.timeout == 0)
    requires s.policy.None? ==> !s.requested && s.active == {}
    requires s.requested && s.hold.Some? ==> clock >= s.hold.value
    ensures Held(ArmTimer(s), clock) && Held(Stage(ArmTimer(s)), clock) && Held(ArmTimer(Stage(s)), clock)
  {}

  lemma RefreshIdleHeld(s: State, runtime: Option<Runtime>, now: int, clock: int)
    requires s.policy.Some? && s.timeout > 0 && !s.requested
    ensures Held(RefreshIdle(s, runtime, now), clock)
  {
    hide ArmTimer, Held, Later;
    ArmTimerHeld(s, clock);
    ArmTimerHeld(s.(idleSince := Some(now)), clock);
    if runtime.Some? && runtime.value.idleSince.Some? {
      ArmTimerHeld(s.(idleSince := runtime.value.idleSince, lastInbound := runtime.value.lastInbound), clock);
    } else {
      ArmTimerHeld(s.(idleSince := Some(now), lastInbound := if runtime.Some? then runtime.value.lastInbound else None), clock);
    }
  }

  lemma RefreshHeld(s: State, i: Instance, conns: seq<Connection>, now: int, clock: int)
    requires Held(s, clock) && ValidInstance(i)
    ensures Held(Refresh(s, i, conns, now), clock)
  {
    hide Matching, RefreshIdle;
    if !s.executing && Eligible(i) && i.autoStandby.Compiled? && i.ip.Parsed? {
      var p := i.autoStandby.policy;
      var t := s.(ip := i.ip, policy := Some(p), timeout := p.timeout, requested := false, active := {});
      RefreshIdleHeld(t, i.runtime, now, clock);
    }
  }

  /** A refresh keeps track of the instance if and only if it is not the one described by
      `LosesTrack`. */
  lemma RefreshTracks(s: State, i: Instance, conns: seq<Connection>, now: int, clock: int)
    requires Held(s, clock) && Tracked(s) && ValidInstance(i)
    ensures Tracked(Refresh(s, i, conns, now)) <==> !LosesTrack(s, i)
  {
    hide Matching;
  }

  lemma OnEventHeld(s: State, e: Event, at: int, clock: int)
    requires Held(s, clock)
    ensures Held(OnEvent(s, e, at), clock)
  {
    hide Inbound, Active;
  }

  lemma ConfirmedHeld(s: State, conns: Option<seq<Connection>>, now: int, clock: int)
    requires Held(s, clock)
    ensures Held(Confirmed(s, Confirm(s, conns), now), clock)
  {
    hide Matching;
  }

  lemma RequestHeld(s: State, clock: int)
    requires Held(s, clock) && MayRequest(s) && Elapsed(s, clock)
    ensures Held(Request(s), clock)
  {}

  lemma WorkerHeld(s: State, now: int, clock: int)
    requires Held(s, clock)
    ensures Held(Claim(s), clock) && Held(Failed(s, now), clock) && Held(Succeeded(s), clock)
    ensures Held(s.(executing := false), clock)
    ensures MayClaim(s) && s.hold.Some? ==> clock >= s.hold.value
  {}

  lemma ReconcileHeld(s: State, conns: Option<seq<Connection>>, now: int, clock: int)
    requires Held(s, clock)
    ensures Held(Reconcile(s, conns, now), clock)
  {
    hide Matching;
  }

  lemma HoldHeld(s: State, timeout: int, now: int, clock: int)
    requires Held(s, clock)
    ensures Held(Hold(s, timeout, now), clock)
  {}

  lemma OnEventTracks(s: State, e: Event, at: int, clock: int)
    requires Held(s, clock) && Tracked(s)
    ensures Tracked(OnEvent(s, e, at))
  {
    hide Inbound, Active;
  }

  lemma ConfirmedTracks(s: State, conns: Option<seq<Connection>>, now: int, clock: int)
    requires Held(s, clock) && Tracked(s)
    ensures Tracked(Confirmed(s, Confirm(s, conns), now))
  {
    hide Matching;
  }

  lemma TimerTracks(s: State, clock: int)
    requires Held(s, clock) && Tracked(s) && MayRequest(s)
    ensures Tracked(ArmTimer(s)) && Tracked(Request(s))
  {}

  lemma WorkerTracks(s: State, now: int, clock: int)
    requires Held(s, clock) && Tracked(s)
    ensures Tracked(Claim(s)) && Tracked(Failed(s, now)) && Tracked(Succeeded(s))
    ensures Tracked(s.(executing := false))
  {}

  lemma ReconcileTracks(s: State, conns: Option<seq<Connection>>, now: int, clock: int)
    requires Held(s, clock) && Tracked(s)
    ensures Tracked(Reconcile(s, conns, now))
  {
    hide Matching;
  }

  lemma HoldTracks(s: State, timeout: int, now: int, clock: int)
    requires Held(s, clock) && Tracked(s)
    ensures Tracked(Hold(s, timeout, now))
  {}
}
