/** The auto-standby controller as a whole (lib/autostandby/controller.go): one event loop
    whose standby timer handler drops the lock twice, API goroutines placing holds at any
    moment, and the standby workers. Each step is one locked section or one call between
    two of them; any step that is enabled may come next. */
module StandbyWorld {
  import opened ConnectionClassifier
  import opened StandbyState

  /** Waiting for a slot, past the cancellation check, in StandbyInstance, back from it, or gone. */
  datatype Phase = Queued | Ready | Calling | Finishing | Exited

  /** `incarnation` is that of the state the worker claimed. */
  datatype Worker = Worker(id: Id, incarnation: nat, phase: Phase)

  /** Where the event loop is in handleStandbyTimer. */
  datatype Loop = Waiting | Passed(id: Id) | Listed(id: Id, conns: Option<seq<Connection>>) | Cleared(id: Id)

  datatype World = World(clock: int, states: map<Id, State>, born: nat, loop: Loop, workers: seq<Worker>,
                         cancelled: bool, stopped: bool)

  datatype Outcome = Success | Failure | NotFound

  datatype Step =
    | Tick(to: int)
    | PlaceHold(inst: Instance, now: int)
    | RefreshInstance(inst: Instance, seen: seq<Connection>, now: int)
    | Delete(id: Id)
    | Connect(event: Event, at: int)
    | ReconcileActive(id: Id, conns: Option<seq<Connection>>, now: int)
    | Fire(id: Id)
    | List(conns: Option<seq<Connection>>)
    | Check
    | Ask
    | Begin(w: nat)
    | Drop(w: nat)
    | Take(w: nat)
    | Return(w: nat, how: Outcome)
    | Done(w: nat)
    | Cancel
    | Stop

  predicate LoopFree(s: World) { s.loop.Waiting? && !s.stopped }

  predicate InPhase(s: World, w: nat, p: Phase) { w < |s.workers| && s.workers[w].phase == p }

  /** Times taken before the lock was acquired may lie behind the clock, never ahead of it. */
  predicate Enabled(s: World, e: Step) {
    match e
    case Tick(to) => to >= s.clock
    case PlaceHold(i, now) => now <= s.clock && ValidInstance(i)
    case RefreshInstance(i, _, now) => LoopFree(s) && now <= s.clock && ValidInstance(i)
    case Delete(_) => LoopFree(s)
    case Connect(_, _) => LoopFree(s)
    case ReconcileActive(_, _, now) => LoopFree(s) && now <= s.clock
    case Fire(_) => LoopFree(s)
    case List(_) => s.loop.Passed?
    case Check => s.loop.Listed?
    case Ask => s.loop.Cleared?
    case Begin(w) => InPhase(s, w, Queued) && !s.cancelled
    case Drop(w) => InPhase(s, w, Queued) && s.cancelled
    case Take(w) => InPhase(s, w, Ready)
    case Return(w, _) => InPhase(s, w, Calling)
    case Done(w) => InPhase(s, w, Finishing)
    case Cancel => true
    case Stop => LoopFree(s)
  }

  /* ---- what a step does to one instance's state ---- */

  function Lookup(s: World, id: Id): Option<State> { if id in s.states then Some(s.states[id]) else None }

  /** ensureStateLocked. */
  function Ensure(s: World, id: Id): State { if id in s.states then s.states[id] else Fresh(s.born) }

  function LocalHold(s: World, i: Instance, now: int): Option<State> {
    var cur := Lookup(s, i.id);
    if cur.Some? && cur.value.executing then cur
    else if cur.Some? && cur.value.policy.Some? then
      if cur.value.timeout <= 0 then cur else Some(Hold(cur.value, cur.value.timeout, now))
    else if Eligible(i) && i.autoStandby.Compiled? then
      Some(Hold(Ensure(s, i.id), i.autoStandby.policy.timeout, now))
    else cur
  }

  /** standbyDeadlineElapsedLocked re-arms the timer when the deadline is still ahead. */
  function LocalDeadline(st: State, clock: int, passed: State): State {
    if !MayRequest(st) then st else if Elapsed(st, clock) then passed else ArmTimer(st)
  }

  function LocalReturn(st: State, how: Outcome, clock: int): Option<State> {
    match how
    case Success => Some(Succeeded(st))
    case Failure => Some(Failed(st, clock))
    case NotFound => None
  }

  predicate WorksOn(s: World, w: nat, id: Id) { w < |s.workers| && s.workers[w].id == id }

  function Local(s: World, e: Step, id: Id): Option<State> {
    var cur := Lookup(s, id);
    match e
    case PlaceHold(i, now) => if i.id == id then LocalHold(s, i, now) else cur
    case RefreshInstance(i, conns, now) => if i.id == id then Some(Refresh(Ensure(s, id), i, conns, now)) else cur
    case Delete(d) => if d == id then None else cur
    case Connect(event, at) => if cur.Some? then Some(OnEvent(cur.value, event, at)) else cur
    case ReconcileActive(d, conns, now) => if d == id && cur.Some? then Some(Reconcile(cur.value, conns, now)) else cur
    case Fire(d) => if d == id && cur.Some? then Some(LocalDeadline(cur.value, s.clock, cur.value)) else cur
    case Check =>
      if s.loop.Listed? && s.loop.id == id && cur.Some?
      then Some(Confirmed(cur.value, Confirm(cur.value, s.loop.conns), s.clock)) else cur
    case Ask =>
      if s.loop.Cleared? && s.loop.id == id && cur.Some?
      then Some(LocalDeadline(cur.value, s.clock, Request(cur.value))) else cur
    case Take(w) => if WorksOn(s, w, id) && cur.Some? then Some(Claim(cur.value)) else cur
    case Return(w, how) => if WorksOn(s, w, id) && cur.Some? then LocalReturn(cur.value, how, s.clock) else cur
    case Done(w) => if WorksOn(s, w, id) && cur.Some? then Some(cur.value.(executing := false)) else cur
    case Stop => if cur.Some? then Some(cur.value.(next := None, reconcile := false)) else cur
    case _ => cur
  }

  /* ---- what a step does to the rest ---- */

  /** The instance for which the step may make a state. */
  function Named(e: Step): set<Id> { if e.PlaceHold? || e.RefreshInstance? then {e.inst.id} else {} }

  function NextStates(s: World, e: Step): map<Id, State> {
    map id | id in s.states.Keys + Named(e) && Local(s, e, id).Some? :: Local(s, e, id).value
  }

  predicate Creates(s: World, e: Step) {
    (e.PlaceHold? || e.RefreshInstance?) && e.inst.id !in s.states && Local(s, e, e.inst.id).Some?
  }

  /** The timer handler goes on when its guard holds and the deadline has passed. */
  predicate GoesOn(s: World, id: Id) { id in s.states && MayRequest(s.states[id]) && Elapsed(s.states[id], s.clock) }

  function NextLoop(s: World, e: Step): Loop
    requires Enabled(s, e)
  {
    match e
    case Fire(id) => if GoesOn(s, id) then Passed(id) else Waiting
    case List(conns) => Listed(s.loop.id, conns)
    case Check =>
      var id := s.loop.id;
      if id in s.states && Confirm(s.states[id], s.loop.conns).Quiet? then Cleared(id) else Waiting
    case Ask => Waiting
    case _ => s.loop
  }

  function Move(ws: seq<Worker>, w: nat, p: Phase): seq<Worker>
    requires w < |ws|
  {
    ws[w := ws[w].(phase := p)]
  }

  /** A request starts its worker; the rest are the workers' own moves. */
  function NextWorkers(s: World, e: Step): seq<Worker>
    requires Enabled(s, e)
  {
    match e
    case Ask => if GoesOn(s, s.loop.id) then s.workers + [Worker(s.loop.id, 0, Queued)] else s.workers
    case Begin(w) => Move(s.workers, w, Ready)
    case Drop(w) => Move(s.workers, w, Exited)
    case Take(w) =>
      var id := s.workers[w].id;
      if id in s.states && MayClaim(s.states[id]) then s.workers[w := Worker(id, s.states[id].incarnation, Calling)]
      else Move(s.workers, w, Exited)
    case Return(w, _) => Move(s.workers, w, Finishing)
    case Done(w) => Move(s.workers, w, Exited)
    case _ => s.workers
  }

  ghost predicate Next(s: World, e: Step, r: World) {
    && Enabled(s, e)
    && r.clock == (if e.Tick? then e.to else s.clock)
    && r.states == NextStates(s, e)
    && r.born == (if Creates(s, e) then s.born + 1 else s.born)
    && r.loop == NextLoop(s, e)
    && r.workers == NextWorkers(s, e)
    && r.cancelled == (s.cancelled || e.Cancel?)
    && r.stopped == (s.stopped || e.Stop?)
  }

  /** Every instance's state changes as `Local` says, and no other does. */
  lemma StatesAre(s: World, e: Step, id: Id)
    ensures id in NextStates(s, e) <==> Local(s, e, id).Some?
    ensures id in NextStates(s, e) ==> NextStates(s, e)[id] == Local(s, e, id).value
  {
    hide Refresh, OnEvent, Hold, Confirm, Confirmed, Reconcile, Claim, Failed, Succeeded, ArmTimer, Request, LocalDeadline;
  }

  /* ---- runs ---- */

  /** A fresh controller. */
  ghost predicate Initial(s: World) {
    s.states == map[] && s.loop.Waiting? && s.workers == [] && !s.cancelled && !s.stopped
  }

  ghost predicate IsRun(tr: seq<World>, es: seq<Step>) {
    && |tr| == |es| + 1 && Initial(tr[0])
    && forall i :: 0 <= i < |es| ==> Next(tr[i], es[i], tr[i + 1])
  }

  /* ---- the hold guarantee ---- */

  ghost predicate AllHeld(s: World) {
    forall id :: id in s.states ==> Held(s.states[id], s.clock)
  }

  lemma EnsureHeld(s: World, id: Id)
    requires AllHeld(s)
    ensures Held(Ensure(s, id), s.clock)
  {}

  lemma DeadlineHeld(st: State, clock: int)
    requires Held(st, clock)
    ensures Held(LocalDeadline(st, clock, st), clock) && Held(LocalDeadline(st, clock, Request(st)), clock)
  {
    ArmTimerHeld(st, clock);
  }

  lemma LocalHoldHeld(s: World, i: Instance, now: int)
    requires AllHeld(s)
    ensures LocalHold(s, i, now).Some? ==> Held(LocalHold(s, i, now).value, s.clock)
  {
    hide Held, Hold;
    EnsureHeld(s, i.id);
    HoldHeld(Ensure(s, i.id), Ensure(s, i.id).timeout, now, s.clock);
    if i.autoStandby.Compiled? {
      HoldHeld(Ensure(s, i.id), i.autoStandby.policy.timeout, now, s.clock);
    }
  }

  lemma LocalHeld(s: World, e: Step, id: Id)
    requires AllHeld(s) && Enabled(s, e)
    ensures Local(s, e, id).Some? ==> Held(Local(s, e, id).value, s.clock)
  {
    hide Held, Refresh, OnEvent, LocalHold, Confirm, Confirmed, Reconcile, Claim, Failed, Succeeded, LocalDeadline, Request;
    EnsureHeld(s, id);
    var st := Ensure(s, id);
    match e
    case PlaceHold(i, now) => LocalHoldHeld(s, i, now);
    case RefreshInstance(i, conns, now) => RefreshHeld(st, i, conns, now, s.clock);
    case Connect(event, at) => OnEventHeld(st, event, at, s.clock);
    case ReconcileActive(_, conns, now) => ReconcileHeld(st, conns, now, s.clock);
    case Fire(_) => DeadlineHeld(st, s.clock);
    case Check => ConfirmedHeld(st, s.loop.conns, s.clock, s.clock);
    case Ask => DeadlineHeld(st, s.clock);
    case Take(_) => WorkerHeld(st, s.clock, s.clock);
    case Return(_, _) => WorkerHeld(st, s.clock, s.clock);
    case Done(_) => WorkerHeld(st, s.clock, s.clock);
    case Stop => UnarmedHeld(st, s.clock);
    case _ =>
  }

  lemma UnarmedHeld(st: State, clock: int)
    requires Held(st, clock)
    ensures Held(st.(next := None, reconcile := false), clock)
  {}

  lemma LaterHeld(st: State, clock: int, to: int)
    requires Held(st, clock) && clock <= to
    ensures Held(st, to)
  {}

  lemma NextHeld(s: World, e: Step, r: World)
    requires AllHeld(s) && Next(s, e, r)
    ensures AllHeld(r)
  {
    hide Held, Local, NextStates, NextLoop, NextWorkers;
    forall id | id in r.states
      ensures Held(r.states[id], r.clock)
    {
      StatesAre(s, e, id);
      LocalHeld(s, e, id);
      LaterHeld(r.states[id], s.clock, r.clock);
    }
  }

  lemma {:induction false} RunHeld(tr: seq<World>, es: seq<Step>, j: nat)
    requires IsRun(tr, es) && j <= |es|
    ensures AllHeld(tr[j])
    decreases j
  {
    hide Next;
    if j > 0 {
      RunHeld(tr, es, j - 1);
      assert Next(tr[j - 1], es[j - 1], tr[j]);
      NextHeld(tr[j - 1], es[j - 1], tr[j]);
    }
  }

  /** The steps that end a hold: a newer one that is placed, or those that clear or remove the state. */
  predicate Lifts(s: World, e: Step, id: Id) {
    || (e.PlaceHold? && e.inst.id == id && LocalHold(s, e.inst, e.now) != Lookup(s, id))
    || (e.Delete? && e.id == id)
    || (e.RefreshInstance? && e.inst.id == id && !Eligible(e.inst))
    || (e.Return? && WorksOn(s, e.w, id) && !e.how.Failure?)
  }

  /** What most sections leave alone. */
  ghost predicate Calm(st: State, r: State) {
    r.hold == st.hold && (r.requested ==> st.requested) && r.executing == st.executing && r.incarnation == st.incarnation
  }

  lemma OnEventCalm(st: State, e: Event, at: int)
    ensures Calm(st, OnEvent(st, e, at)) && (Hits(st, e) ==> !OnEvent(st, e, at).requested)
  {
    hide Inbound, Active;
  }

  lemma TimerCalm(st: State, conns: Option<seq<Connection>>, now: int)
    ensures Calm(st, ArmTimer(st)) && Calm(st, Confirmed(st, Confirm(st, conns), now))
  {
    hide Matching;
  }

  lemma ReconcileCalm(st: State, conns: Option<seq<Connection>>, now: int)
    ensures Calm(st, Reconcile(st, conns, now))
  {
    hide Matching;
  }

  lemma FailedCalm(st: State, now: int)
    ensures Calm(st, Failed(st, now)) && !Failed(st, now).requested
  {}

  lemma RefreshCalm(st: State, i: Instance, conns: seq<Connection>, now: int)
    ensures Calm(st.(hold := None), Refresh(st, i, conns, now).(hold := None))
    ensures Eligible(i) ==> Calm(st, Refresh(st, i, conns, now))
  {
    hide Matching;
  }

  lemma HoldCancels(st: State, timeout: int, now: int)
    ensures !Hold(st, timeout, now).requested
    ensures Hold(st, timeout, now).executing == st.executing && Hold(st, timeout, now).incarnation == st.incarnation
  {}

  lemma HoldStays(s: World, e: Step, id: Id)
    requires id in s.states && !Lifts(s, e, id)
    ensures Local(s, e, id).Some? && Local(s, e, id).value.hold == s.states[id].hold
  {
    hide Refresh, OnEvent, Confirm, Confirmed, Reconcile, Failed, ArmTimer, Elapsed, Eligible;
    var st := s.states[id];
    match e
    case RefreshInstance(i, conns, now) => RefreshCalm(st, i, conns, now);
    case Connect(event, at) => OnEventCalm(st, event, at);
    case ReconcileActive(_, conns, now) => ReconcileCalm(st, conns, now);
    case Fire(_) => TimerCalm(st, None, 0);
    case Check =>
      if s.loop.Listed? {
        TimerCalm(st, s.loop.conns, s.clock);
      }
    case Ask => TimerCalm(st, None, 0);
    case Return(_, _) => FailedCalm(st, s.clock);
    case _ =>
  }

  /** A step in which a worker goes on to call StandbyInstance for `id`. */
  ghost predicate Starts(s: World, e: Step, id: Id) {
    e.Take? && InPhase(s, e.w, Ready) && WorksOn(s, e.w, id) && id in s.states && MayClaim(s.states[id])
  }

  /** A successful HoldStandby holds the instance until its time of call plus the timeout. */
  lemma HoldIsPlaced(s: World, i: Instance, now: int)
    requires AllHeld(s) && ValidInstance(i)
    requires i.id in s.states ==> !s.states[i.id].executing
    requires (i.id in s.states && s.states[i.id].policy.Some?) || (Eligible(i) && i.autoStandby.Compiled?)
    ensures var r := LocalHold(s, i, now);
      var timeout := if i.id in s.states && s.states[i.id].policy.Some? then s.states[i.id].timeout
                     else i.autoStandby.policy.timeout;
      timeout > 0 && r.Some? && r.value.hold == Some(now + timeout) && !r.value.requested
  {}

  lemma {:induction false} HoldStaysAlong(tr: seq<World>, es: seq<Step>, i: nat, j: nat, id: Id)
    requires IsRun(tr, es) && i <= j <= |es|
    requires id in tr[i].states
    requires forall k :: i <= k < j ==> !Lifts(tr[k], es[k], id)
    ensures id in tr[j].states && tr[j].states[id].hold == tr[i].states[id].hold
    decreases j - i
  {
    hide Lifts, Local, NextStates, NextLoop, NextWorkers, Enabled;
    if i < j {
      HoldStaysAlong(tr, es, i, j - 1, id);
      assert Next(tr[j - 1], es[j - 1], tr[j]);
      StatesAre(tr[j - 1], es[j - 1], id);
      HoldStays(tr[j - 1], es[j - 1], id);
    }
  }

  /** The hold guarantee, over every run: once a hold until `h` is in place, no worker starts
      standby before `h`, whatever timers fire late, confirmations overlap or workers were
      already queued, unless the hold is replaced or its state cleared or removed. */
  lemma HoldGuarantee(tr: seq<World>, es: seq<Step>, i: nat, j: nat, id: Id, h: int)
    requires IsRun(tr, es) && i <= j < |es|
    requires id in tr[i].states && tr[i].states[id].hold == Some(h)
    requires forall k :: i <= k < j ==> !Lifts(tr[k], es[k], id)
    requires Starts(tr[j], es[j], id)
    ensures tr[j].clock >= h
  {
    hide Next, Lifts;
    HoldStaysAlong(tr, es, i, j, id);
    RunHeld(tr, es, j);
    WorkerHeld(tr[j].states[id], 0, tr[j].clock);
  }
}
