/** Single flight and queued workers. A worker marks the state it claims as executing and
    unmarks, by instance name, whatever state it finds when it is done. A state that was
    removed and made again in between can be unmarked by a worker that does not own it: that
    is the only way in which two calls can overlap on one state. A request is never left
    without a worker: one is on its way to it, or in its call. */
module StandbyFlight {
  import opened ConnectionClassifier
  import opened StandbyState
  import opened StandbyWorld
  import opened StandbyGrounds

  /** Worker `w` is between its claim of the `inc`-th state and its end. */
  predicate Busy(ws: seq<Worker>, w: nat, id: Id, inc: nat) {
    w < |ws| && ws[w].id == id && ws[w].incarnation == inc && (ws[w].phase.Calling? || ws[w].phase.Finishing?)
  }

  /** A worker that has not yet claimed. */
  predicate Pending(ws: seq<Worker>, w: nat, id: Id) {
    w < |ws| && ws[w].id == id && (ws[w].phase.Queued? || ws[w].phase.Ready?)
  }

  /** The step unmarks the state of `id` that another worker has claimed. */
  predicate Usurps(s: World, e: Step, id: Id) {
    && e.Done? && WorksOn(s, e.w, id) && id in s.states
    && s.states[id].incarnation != s.workers[e.w].incarnation && s.states[id].executing
  }

  ghost predicate Numbered(s: World) {
    && (forall id :: id in s.states ==> s.states[id].incarnation < s.born)
    && (forall w: nat, id: Id, inc: nat :: Busy(s.workers, w, id, inc) ==> inc < s.born)
  }

  ghost predicate Marked(s: World, id: Id) {
    id in s.states ==> (s.states[id].executing <==> exists w :: Busy(s.workers, w, id, s.states[id].incarnation))
  }

  ghost predicate Single(s: World, id: Id) {
    forall v: nat, w: nat, inc: nat :: Busy(s.workers, v, id, inc) && Busy(s.workers, w, id, inc) ==> v == w
  }

  /** The mark of `id`'s state says whether a worker is busy on it, and at most one is. */
  ghost predicate Honest(s: World, id: Id) { Marked(s, id) && Single(s, id) }

  /** How a step changes the marks of one state. */
  lemma LocalMarks(s: World, e: Step, id: Id)
    requires Enabled(s, e) && Local(s, e, id).Some?
    ensures id !in s.states ==>
      && Creates(s, e) && Local(s, e, id).value.incarnation == s.born
      && !Local(s, e, id).value.executing && !Local(s, e, id).value.requested
    ensures id in s.states ==>
      && Local(s, e, id).value.incarnation == s.states[id].incarnation
      && Local(s, e, id).value.executing ==
         (if e.Take? && WorksOn(s, e.w, id) then s.states[id].executing || MayClaim(s.states[id])
          else if e.Done? && WorksOn(s, e.w, id) then false
          else s.states[id].executing)
  {
    hide Refresh, OnEvent, Confirm, Confirmed, Reconcile, Failed, ArmTimer, Elapsed, Eligible, Hold;
    var st := Ensure(s, id);
    match e
    case PlaceHold(i, now) =>
      HoldCancels(st, st.timeout, now);
      if i.autoStandby.Compiled? {
        HoldCancels(st, i.autoStandby.policy.timeout, now);
      }
    case RefreshInstance(i, conns, now) => RefreshCalm(st, i, conns, now);
    case Connect(event, at) => OnEventCalm(st, event, at);
    case ReconcileActive(_, conns, now) => ReconcileCalm(st, conns, now);
    case Fire(_) => TimerCalm(st, None, 0);
    case Check => TimerCalm(st, s.loop.conns, s.clock);
    case Ask => TimerCalm(st, None, 0);
    case Return(_, _) => FailedCalm(st, s.clock);
    case _ =>
  }

  /** Steps other than a claim and an end leave every worker as busy as it was. */
  lemma BusyStays(s: World, e: Step, w: nat, id: Id, inc: nat)
    requires Enabled(s, e)
    requires !e.Done? && !(e.Take? && s.workers[e.w].id in s.states && MayClaim(s.states[s.workers[e.w].id]))
    ensures Busy(NextWorkers(s, e), w, id, inc) <==> Busy(s.workers, w, id, inc)
  {
    hide GoesOn, MayClaim;
  }

  lemma BusyAfterDone(s: World, e: Step, w: nat, id: Id, inc: nat)
    requires Enabled(s, e) && e.Done?
    ensures Busy(NextWorkers(s, e), w, id, inc) <==> Busy(s.workers, w, id, inc) && w != e.w
  {}

  lemma BusyAfterClaim(s: World, e: Step, w: nat, id: Id, inc: nat)
    requires Enabled(s, e) && e.Take? && s.workers[e.w].id in s.states && MayClaim(s.states[s.workers[e.w].id])
    ensures Busy(NextWorkers(s, e), w, id, inc) <==>
            (if w == e.w then id == s.workers[w].id && inc == s.states[id].incarnation else Busy(s.workers, w, id, inc))
  {
    hide MayClaim;
  }

  /** Whether the step claims a state. */
  predicate Claims(s: World, e: Step) {
    e.Take? && e.w < |s.workers| && s.workers[e.w].id in s.states && MayClaim(s.states[s.workers[e.w].id])
  }

  lemma NextNumbered(s: World, e: Step, r: World)
    requires Numbered(s) && Next(s, e, r)
    ensures Numbered(r)
  {
    hide Local, NextStates, NextLoop, NextWorkers, Creates, MayClaim;
    forall id | id in r.states
      ensures r.states[id].incarnation < r.born
    {
      StatesAre(s, e, id);
      LocalMarks(s, e, id);
    }
    forall w: nat, id: Id, inc: nat | Busy(r.workers, w, id, inc)
      ensures inc < r.born
    {
      if e.Done? {
        BusyAfterDone(s, e, w, id, inc);
      } else if Claims(s, e) {
        BusyAfterClaim(s, e, w, id, inc);
      } else {
        BusyStays(s, e, w, id, inc);
      }
    }
  }

  lemma {:induction false} RunNumbered(tr: seq<World>, es: seq<Step>, j: nat)
    requires IsRun(tr, es) && j <= |es|
    ensures Numbered(tr[j])
    decreases j
  {
    hide Next;
    if j > 0 {
      RunNumbered(tr, es, j - 1);
      assert Next(tr[j - 1], es[j - 1], tr[j]);
      NextNumbered(tr[j - 1], es[j - 1], tr[j]);
    }
  }

  lemma ClaimIsFirst(s: World, e: Step)
    requires Enabled(s, e) && Claims(s, e) && Marked(s, s.workers[e.w].id)
    ensures var id := s.workers[e.w].id;
      forall w :: !Busy(s.workers, w, id, s.states[id].incarnation)
  {}

  lemma NextSingle(s: World, e: Step, r: World, id: Id)
    requires Honest(s, id) && Next(s, e, r)
    ensures Single(r, id)
  {
    hide Local, NextStates, NextLoop, NextWorkers, Creates, MayClaim;
    forall v: nat, w: nat, inc: nat | Busy(r.workers, v, id, inc) && Busy(r.workers, w, id, inc)
      ensures v == w
    {
      if e.Done? {
        BusyAfterDone(s, e, v, id, inc);
        BusyAfterDone(s, e, w, id, inc);
      } else if Claims(s, e) {
        BusyAfterClaim(s, e, v, id, inc);
        BusyAfterClaim(s, e, w, id, inc);
        if s.workers[e.w].id == id {
          ClaimIsFirst(s, e);
        }
      } else {
        BusyStays(s, e, v, id, inc);
        BusyStays(s, e, w, id, inc);
      }
    }
  }

  /** The mark of a state tells whether a worker is busy on it, after every step but one. */
  lemma NextMarked(s: World, e: Step, r: World, id: Id)
    requires Numbered(s) && Honest(s, id) && Next(s, e, r) && !Usurps(s, e, id)
    ensures Marked(r, id)
  {
    hide Local, NextStates, NextLoop, NextWorkers, MayClaim;
    if id in r.states {
      StatesAre(s, e, id);
      LocalMarks(s, e, id);
      var inc := r.states[id].incarnation;
      if e.Done? {
        forall w: nat
          ensures Busy(r.workers, w, id, inc) <==> Busy(s.workers, w, id, inc) && w != e.w
        {
          BusyAfterDone(s, e, w, id, inc);
        }
        MarkAfterDone(s, e, r, id);
      } else if Claims(s, e) {
        forall w: nat
          ensures Busy(r.workers, w, id, inc) <==>
                  (if w == e.w then id == s.workers[w].id else Busy(s.workers, w, id, inc))
        {
          BusyAfterClaim(s, e, w, id, inc);
        }
        if id == s.workers[e.w].id {
          assert Busy(r.workers, e.w, id, inc);
        }
      } else {
        forall w: nat
          ensures Busy(r.workers, w, id, inc) <==> Busy(s.workers, w, id, inc)
        {
          BusyStays(s, e, w, id, inc);
        }
      }
    }
  }

  lemma MarkAfterDone(s: World, e: Step, r: World, id: Id)
    requires Honest(s, id) && Enabled(s, e) && e.Done? && !Usurps(s, e, id) && id in s.states && id in r.states
    requires r.states[id].incarnation == s.states[id].incarnation
    requires r.states[id].executing == (if WorksOn(s, e.w, id) then false else s.states[id].executing)
    requires forall w: nat :: Busy(r.workers, w, id, s.states[id].incarnation) <==>
                         Busy(s.workers, w, id, s.states[id].incarnation) && w != e.w
    ensures Marked(r, id)
  {
    var inc := s.states[id].incarnation;
    if WorksOn(s, e.w, id) {
      if s.workers[e.w].incarnation == inc {
        assert Busy(s.workers, e.w, id, inc);
      }
    } else {
      assert !Busy(s.workers, e.w, id, inc);
    }
  }

  lemma NextHonest(s: World, e: Step, r: World, id: Id)
    requires Numbered(s) && Honest(s, id) && Next(s, e, r) && !Usurps(s, e, id)
    ensures Honest(r, id)
  {
    hide Next, Usurps, Numbered, Marked, Single;
    NextSingle(s, e, r, id);
    NextMarked(s, e, r, id);
  }

  /** And that one step always breaks it: the condition is exact. */
  lemma UsurpingUnmarks(s: World, e: Step, r: World, id: Id)
    requires Numbered(s) && Honest(s, id) && Next(s, e, r)
    ensures Honest(r, id) <==> !Usurps(s, e, id)
  {
    hide Local, NextStates, NextLoop, NextWorkers, Creates, Numbered, Single;
    if Usurps(s, e, id) {
      var inc := s.states[id].incarnation;
      StatesAre(s, e, id);
      DoneKeepsState(s, e, id);
      LocalMarks(s, e, id);
      var w :| Busy(s.workers, w, id, inc);
      BusyAfterDone(s, e, w, id, inc);
      assert Busy(r.workers, w, id, inc);
      assert !Marked(r, id);
    } else {
      NextHonest(s, e, r, id);
    }
  }

  lemma DoneKeepsState(s: World, e: Step, id: Id)
    requires e.Done? && id in s.states
    ensures Local(s, e, id).Some?
  {}

  lemma {:induction false} RunHonest(tr: seq<World>, es: seq<Step>, j: nat, id: Id)
    requires IsRun(tr, es) && j <= |es|
    requires forall i :: 0 <= i < j ==> !Usurps(tr[i], es[i], id)
    ensures Honest(tr[j], id)
    decreases j
  {
    hide Next, Usurps;
    if j > 0 {
      RunHonest(tr, es, j - 1, id);
      RunNumbered(tr, es, j - 1);
      assert Next(tr[j - 1], es[j - 1], tr[j]);
      assert !Usurps(tr[j - 1], es[j - 1], id);
      NextHonest(tr[j - 1], es[j - 1], tr[j], id);
    }
  }

  /** Single flight: as long as no worker has unmarked a state of `id` that is not its own, a standby
      of `id` starts only when no other is in flight on the same state, so between the removals of the
      instance's state at most one is. */
  lemma SingleFlight(tr: seq<World>, es: seq<Step>, j: nat, id: Id)
    requires IsRun(tr, es) && j < |es| && Starts(tr[j], es[j], id)
    requires forall i :: 0 <= i < j ==> !Usurps(tr[i], es[i], id)
    ensures forall w :: !Busy(tr[j].workers, w, id, tr[j].states[id].incarnation)
  {
    hide Next, Usurps, MayClaim;
    RunHonest(tr, es, j, id);
    ClaimIsFirst(tr[j], es[j]);
  }

  /** What an usurping step leads to: a worker that was still queued from an earlier, cancelled
      request now starts a second call on a state whose own call is still in flight. */
  lemma SecondFlight(s: World, e: Step, r: World, v: nat, id: Id)
    requires Honest(s, id) && Next(s, e, r) && Usurps(s, e, id)
    requires s.states[id].policy.Some? && s.states[id].active == {} && s.states[id].requested
    requires InPhase(s, v, Ready) && WorksOn(s, v, id)
    ensures Starts(r, Take(v), id)
    ensures exists w :: Busy(r.workers, w, id, r.states[id].incarnation)
  {
    hide NextLoop, Creates, Single;
    var inc := s.states[id].incarnation;
    StatesAre(s, e, id);
    var w :| Busy(s.workers, w, id, inc);
    BusyAfterDone(s, e, w, id, inc);
    assert Busy(r.workers, w, id, inc);
  }

  /* ---- a request has a worker ---- */

  /** Worker `w` is in its call on the `inc`-th state. */
  predicate InCall(ws: seq<Worker>, w: nat, id: Id, inc: nat) {
    w < |ws| && ws[w].id == id && ws[w].incarnation == inc && ws[w].phase.Calling?
  }

  /** A worker is on its way to the state, or in its call on it. */
  ghost predicate Served(s: World, id: Id)
    requires id in s.states
  {
    (exists w :: Pending(s.workers, w, id)) || (exists w :: InCall(s.workers, w, id, s.states[id].incarnation))
  }

  /** A request on a marked state is that of a worker in its call. */
  ghost predicate Claimed(s: World, id: Id) {
    id in s.states && s.states[id].requested && s.states[id].executing ==>
      exists w :: InCall(s.workers, w, id, s.states[id].incarnation)
  }

  ghost predicate Attended(s: World, id: Id) {
    !s.cancelled && id in s.states && s.states[id].requested ==> Served(s, id)
  }

  lemma ReturnDropsRequest(s: World, e: Step, id: Id)
    requires e.Return? && WorksOn(s, e.w, id) && Local(s, e, id).Some?
    ensures !Local(s, e, id).value.requested
  {}

  lemma AskOnlyIdle(s: World, e: Step, id: Id)
    requires e.Ask? && s.loop.Cleared? && Local(s, e, id).Some? && Local(s, e, id).value.requested
    requires id in s.states && !s.states[id].requested
    ensures !s.states[id].executing && GoesOn(s, id) && s.loop.id == id
  {}

  lemma CallGoesOn(s: World, e: Step, w: nat, id: Id, inc: nat)
    requires Enabled(s, e) && InCall(s.workers, w, id, inc) && !(e.Return? && WorksOn(s, e.w, id))
    ensures InCall(NextWorkers(s, e), w, id, inc)
  {
    hide GoesOn, MayClaim;
  }

  lemma ClaimCalls(s: World, e: Step)
    requires Enabled(s, e) && Claims(s, e)
    ensures InCall(NextWorkers(s, e), e.w, s.workers[e.w].id, s.states[s.workers[e.w].id].incarnation)
  {
    hide MayClaim;
  }

  lemma NextClaimed(s: World, e: Step, r: World, id: Id)
    requires AllHeld(s) && Claimed(s, id) && Next(s, e, r)
    ensures Claimed(r, id)
  {
    hide Local, NextStates, NextLoop, NextWorkers, Creates, MayClaim, GoesOn, HitAt, AllHeld, InCall;
    if id in r.states && r.states[id].requested && r.states[id].executing {
      StatesAre(s, e, id);
      LocalMarks(s, e, id);
      RequestComesFrom(s, e, id);
      if e.Return? && WorksOn(s, e.w, id) {
        ReturnDropsRequest(s, e, id);
        assert false;
      } else if Claims(s, e) && s.workers[e.w].id == id {
        ClaimCalls(s, e);
      } else {
        if !s.states[id].requested {
          AskOnlyIdle(s, e, id);
        }
        var w :| InCall(s.workers, w, id, s.states[id].incarnation);
        CallGoesOn(s, e, w, id, s.states[id].incarnation);
      }
    }
  }

  lemma PendingStays(s: World, e: Step, w: nat, id: Id)
    requires Enabled(s, e) && Pending(s.workers, w, id)
    requires !(e.Take? && WorksOn(s, e.w, id)) && !s.cancelled
    ensures Pending(NextWorkers(s, e), w, id)
  {
    hide GoesOn, MayClaim;
  }

  lemma TakeSettles(s: World, e: Step, id: Id)
    requires AllHeld(s) && e.Take? && WorksOn(s, e.w, id) && id in s.states
    ensures Local(s, e, id).Some? && !(Local(s, e, id).value.requested && !Local(s, e, id).value.executing)
  {
    assert Held(s.states[id], s.clock);
  }

  lemma AskQueues(s: World, e: Step, id: Id)
    requires Enabled(s, e) && e.Ask? && s.loop.id == id && GoesOn(s, id)
    ensures exists w :: Pending(NextWorkers(s, e), w, id)
  {
    assert Pending(NextWorkers(s, e), |s.workers|, id);
  }

  lemma ServedStays(s: World, e: Step, r: World, id: Id)
    requires id in s.states && Served(s, id) && Enabled(s, e) && !s.cancelled
    requires id in r.states && r.workers == NextWorkers(s, e)
    requires r.states[id].incarnation == s.states[id].incarnation
    requires !(e.Take? && WorksOn(s, e.w, id)) && !(e.Return? && WorksOn(s, e.w, id))
    ensures Served(r, id)
  {
    hide NextWorkers, Pending, InCall, Enabled;
    if w :| Pending(s.workers, w, id) {
      PendingStays(s, e, w, id);
    } else {
      var w :| InCall(s.workers, w, id, s.states[id].incarnation);
      CallGoesOn(s, e, w, id, s.states[id].incarnation);
    }
  }

  lemma NextAttended(s: World, e: Step, r: World, id: Id)
    requires AllHeld(s) && Claimed(s, id) && Attended(s, id) && Next(s, e, r)
    ensures Attended(r, id)
  {
    hide Local, NextStates, NextLoop, NextWorkers, Creates, MayClaim, GoesOn, HitAt, Pending, InCall, AllHeld;
    if !r.cancelled && id in r.states && r.states[id].requested {
      StatesAre(s, e, id);
      LocalMarks(s, e, id);
      RequestComesFrom(s, e, id);
      if e.Take? && WorksOn(s, e.w, id) {
        TakeSettles(s, e, id);
        NextClaimed(s, e, r, id);
      } else if e.Return? && WorksOn(s, e.w, id) {
        ReturnDropsRequest(s, e, id);
        assert false;
      } else if !s.states[id].requested {
        AskOnlyIdle(s, e, id);
        AskQueues(s, e, id);
      } else {
        ServedStays(s, e, r, id);
      }
    }
  }

  lemma {:induction false} RunAttended(tr: seq<World>, es: seq<Step>, j: nat, id: Id)
    requires IsRun(tr, es) && j <= |es|
    ensures Claimed(tr[j], id) && Attended(tr[j], id)
    decreases j
  {
    hide Next, AllHeld;
    if j > 0 {
      RunAttended(tr, es, j - 1, id);
      RunHeld(tr, es, j - 1);
      assert Next(tr[j - 1], es[j - 1], tr[j]);
      NextClaimed(tr[j - 1], es[j - 1], tr[j], id);
      NextAttended(tr[j - 1], es[j - 1], tr[j], id);
    }
  }

  /** In every run, until shutdown, a requested state has a worker on its way or a worker in its call
      on that very state. */
  lemma RequestHasWorker(tr: seq<World>, es: seq<Step>, j: nat, id: Id)
    requires IsRun(tr, es) && j <= |es| && !tr[j].cancelled && id in tr[j].states && tr[j].states[id].requested
    ensures Served(tr[j], id)
  {
    hide Next;
    RunAttended(tr, es, j, id);
  }

  /** As long as nobody has unmarked another's state of `id`, a requested state that is not executing has
      one on its way. */
  lemma RequestHasPending(tr: seq<World>, es: seq<Step>, j: nat, id: Id)
    requires IsRun(tr, es) && j <= |es| && !tr[j].cancelled
    requires id in tr[j].states && tr[j].states[id].requested && !tr[j].states[id].executing
    requires forall i :: 0 <= i < j ==> !Usurps(tr[i], es[i], id)
    ensures exists w :: Pending(tr[j].workers, w, id)
  {
    hide Next, Usurps;
    RunAttended(tr, es, j, id);
    RunHonest(tr, es, j, id);
    var s := tr[j];
    forall w: nat
      ensures InCall(s.workers, w, id, s.states[id].incarnation) ==> Busy(s.workers, w, id, s.states[id].incarnation)
    {
    }
  }
}
