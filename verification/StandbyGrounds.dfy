/** Why an instance may be put into standby: every StandbyInstance call rests on a conntrack
    snapshot, taken for it, that shows no live inbound flow, and on the absence of any such
    flow from the event stream since. */
module StandbyGrounds {
  import opened ConnectionClassifier
  import opened StandbyState
  import opened StandbyWorld

  /** The step applies an event of a live flow that keeps `id` awake. */
  ghost predicate HitAt(s: World, e: Step, id: Id) {
    e.Connect? && id in s.states && Hits(s.states[id], e.event)
  }

  /** No such step strictly between `l` and `j`. */
  ghost predicate QuietSince(tr: seq<World>, es: seq<Step>, l: int, j: int, id: Id)
    requires 0 <= l && j <= |es| == |tr| - 1
  {
    forall k :: l < k < j ==> !HitAt(tr[k], es[k], id)
  }

  /** Step `l` took the snapshot for `id`'s timer. */
  ghost predicate Snapshot(tr: seq<World>, es: seq<Step>, l: int, id: Id, conns: Option<seq<Connection>>)
    requires |es| == |tr| - 1
  {
    0 <= l < |es| && es[l] == List(conns) && tr[l].loop == Passed(id)
  }

  /** Step `i` found nothing in the snapshot of step `l` that keeps `id` awake. */
  ghost predicate FoundQuiet(tr: seq<World>, es: seq<Step>, l: int, i: int, id: Id)
    requires |es| == |tr| - 1
  {
    && 0 <= l < i < |es| && es[i].Check? && id in tr[i].states
    && exists conns ::
         && Snapshot(tr, es, l, id, Some(conns))
         && tr[i].states[id].policy.Some? && tr[i].states[id].ip.Parsed?
         && Matching(tr[i].states[id].ip.addr, tr[i].states[id].policy.value, conns) == {}
  }

  /** Before step `j` there is such a snapshot and nothing has contradicted it since. */
  ghost predicate Grounds(tr: seq<World>, es: seq<Step>, j: int, id: Id)
    requires |es| == |tr| - 1
  {
    exists l, i :: GroundsAt(tr, es, l, i, j, id)
  }

  ghost predicate GroundsAt(tr: seq<World>, es: seq<Step>, l: int, i: int, j: int, id: Id)
    requires |es| == |tr| - 1
  {
    0 <= l < i < j <= |es| && FoundQuiet(tr, es, l, i, id) && QuietSince(tr, es, l, j, id)
  }

  ghost predicate Listing(tr: seq<World>, es: seq<Step>, j: int, id: Id, conns: Option<seq<Connection>>)
    requires |es| == |tr| - 1
  {
    exists l :: ListingAt(tr, es, l, j, id, conns)
  }

  ghost predicate ListingAt(tr: seq<World>, es: seq<Step>, l: int, j: int, id: Id, conns: Option<seq<Connection>>)
    requires |es| == |tr| - 1
  {
    0 <= l < j <= |es| && Snapshot(tr, es, l, id, conns) && QuietSince(tr, es, l, j, id)
  }

  lemma ListingExtends(tr: seq<World>, es: seq<Step>, j: nat, id: Id, conns: Option<seq<Connection>>)
    requires |es| == |tr| - 1 && j < |es|
    requires Listing(tr, es, j, id, conns) && !HitAt(tr[j], es[j], id)
    ensures Listing(tr, es, j + 1, id, conns)
  {
    var l :| ListingAt(tr, es, l, j, id, conns);
    assert ListingAt(tr, es, l, j + 1, id, conns);
  }

  lemma GroundsExtend(tr: seq<World>, es: seq<Step>, j: nat, id: Id)
    requires |es| == |tr| - 1 && j < |es|
    requires Grounds(tr, es, j, id) && !HitAt(tr[j], es[j], id)
    ensures Grounds(tr, es, j + 1, id)
  {
    var l, i :| GroundsAt(tr, es, l, i, j, id);
    assert GroundsAt(tr, es, l, i, j + 1, id);
  }

  lemma CheckGivesGrounds(tr: seq<World>, es: seq<Step>, j: nat, id: Id, conns: Option<seq<Connection>>)
    requires |es| == |tr| - 1 && j < |es| && es[j].Check?
    requires Listing(tr, es, j, id, conns)
    requires id in tr[j].states && Confirm(tr[j].states[id], conns).Quiet?
    ensures Grounds(tr, es, j + 1, id)
  {
    var l :| ListingAt(tr, es, l, j, id, conns);
    assert Snapshot(tr, es, l, id, Some(conns.value));
    assert FoundQuiet(tr, es, l, j, id);
    assert GroundsAt(tr, es, l, j, j + 1, id);
  }

  /** A request stands after a step only if it stood before and the step was no hit, or the
      step is the timer handler's own. */
  lemma RequestComesFrom(s: World, e: Step, id: Id)
    requires AllHeld(s) && Enabled(s, e)
    requires Local(s, e, id).Some? && Local(s, e, id).value.requested
    ensures id in s.states
    ensures (s.states[id].requested && !HitAt(s, e, id)) || (e.Ask? && s.loop.Cleared? && s.loop.id == id)
  {
    hide Refresh, OnEvent, Confirm, Confirmed, Reconcile, Failed, ArmTimer, Elapsed, Eligible, Hits, Request, Hold;
    var st := Ensure(s, id);
    match e
    case PlaceHold(i, now) =>
      HoldCancels(st, st.timeout, now);
      if i.autoStandby.Compiled? {
        HoldCancels(st, i.autoStandby.policy.timeout, now);
      }
    case RefreshInstance(i, conns, now) => RefreshCalm(st, i, conns, now);
    case Connect(event, at) => OnEventCalm(st, event, at);
    case ReconcileActive(_, conns, now) => ReconcileCalm(st, conns, now);
    case Fire(_) => TimerCalm(st, None, 0);
    case Check => TimerCalm(st, s.loop.conns, s.clock);
    case Ask => TimerCalm(st, None, 0);
    case Return(_, _) => FailedCalm(st, s.clock);
    case _ =>
  }

  /** The invariant: a snapshot being looked at was taken for this timer, a confirmation and a
      request have grounds. */
  ghost predicate Grounded(tr: seq<World>, es: seq<Step>, j: nat, id: Id)
    requires |es| == |tr| - 1 && j <= |es|
  {
    && (tr[j].loop.Listed? && tr[j].loop.id == id ==> Listing(tr, es, j, id, tr[j].loop.conns))
    && (tr[j].loop == Cleared(id) ==> Grounds(tr, es, j, id))
    && (id in tr[j].states && tr[j].states[id].requested ==> Grounds(tr, es, j, id))
  }

  /** The loop handles no connection event while a confirmation is under way. */
  lemma LoopGrounded(tr: seq<World>, es: seq<Step>, j: nat, id: Id)
    requires |es| == |tr| - 1 && j < |es| && Next(tr[j], es[j], tr[j + 1])
    requires Grounded(tr, es, j, id)
    ensures tr[j + 1].loop.Listed? && tr[j + 1].loop.id == id ==> Listing(tr, es, j + 1, id, tr[j + 1].loop.conns)
    ensures tr[j + 1].loop == Cleared(id) ==> Grounds(tr, es, j + 1, id)
  {
    hide Listing, Grounds, NextStates, NextWorkers, Creates, Local, Confirm;
    var s, e, r := tr[j], es[j], tr[j + 1];
    if r.loop.Listed? && r.loop.id == id {
      if e.List? {
        assert Snapshot(tr, es, j, id, e.conns);
        ListingStarts(tr, es, j, id, e.conns);
      } else {
        ListingExtends(tr, es, j, id, s.loop.conns);
      }
    }
    if r.loop == Cleared(id) {
      if e.Check? {
        CheckGivesGrounds(tr, es, j, id, s.loop.conns);
      } else {
        GroundsExtend(tr, es, j, id);
      }
    }
  }

  lemma ListingStarts(tr: seq<World>, es: seq<Step>, j: nat, id: Id, conns: Option<seq<Connection>>)
    requires |es| == |tr| - 1 && j < |es| && Snapshot(tr, es, j, id, conns)
    ensures Listing(tr, es, j + 1, id, conns)
  {
    assert ListingAt(tr, es, j, j + 1, id, conns);
  }

  lemma {:induction false} RunGrounded(tr: seq<World>, es: seq<Step>, j: nat, id: Id)
    requires IsRun(tr, es) && j <= |es|
    ensures Grounded(tr, es, j, id)
    decreases j
  {
    hide Listing, Grounds, NextLoop, NextWorkers, NextStates, Creates, Local, Enabled, HitAt;
    if j > 0 {
      var k := j - 1;
      RunGrounded(tr, es, k, id);
      assert Next(tr[k], es[k], tr[k + 1]);
      LoopGrounded(tr, es, k, id);
      if id in tr[j].states && tr[j].states[id].requested {
        RunHeld(tr, es, k);
        StatesAre(tr[k], es[k], id);
        RequestComesFrom(tr[k], es[k], id);
        RequestGrounded(tr, es, k, id);
      }
    }
  }

  lemma RequestGrounded(tr: seq<World>, es: seq<Step>, k: nat, id: Id)
    requires |es| == |tr| - 1 && k < |es| && Next(tr[k], es[k], tr[k + 1])
    requires Grounded(tr, es, k, id) && id in tr[k].states
    requires (tr[k].states[id].requested && !HitAt(tr[k], es[k], id)) || (es[k].Ask? && tr[k].loop.Cleared? && tr[k].loop.id == id)
    ensures Grounds(tr, es, k + 1, id)
  {
    hide Listing, Grounds, NextLoop, NextWorkers, NextStates, Creates, Local;
    GroundsExtend(tr, es, k, id);
  }

  /** Justified standby, over every run: whenever a worker starts StandbyInstance, a snapshot
      taken for this instance's timer showed no live inbound flow under its policy, and no
      event of such a flow has been applied between that snapshot and the start. */
  lemma JustifiedStandby(tr: seq<World>, es: seq<Step>, j: nat, id: Id)
    requires IsRun(tr, es) && j < |es| && Starts(tr[j], es[j], id)
    ensures Grounds(tr, es, j, id)
  {
    RunGrounded(tr, es, j, id);
  }
}
