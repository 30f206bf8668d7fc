/** What the order of a build around its builder is for: its VM lives inside its lease, its
    lease inside its key's window, no live build loses its VM, and no builder disk ever has
    two running VMs. The first holds exactly as long as deleting the VM does not fail; the
    last two as long as no builder is made again while the reaper is still at its
    predecessor. */
module BuildNesting {
  import BuildQueue
  import opened BuildExecution

  /* ---- leases and windows ---- */

  lemma LeaseInWindow(s: State, id: string)
    requires Inv(s) && id in s.phase && Key(s, id) != "" && Leasing(s.phase[id])
    ensures Key(s, id) in s.acquired && s.acquired[Key(s, id)] == id && Key(s, id) !in s.leaked
    ensures id in s.q.keys && s.q.keys[id] == Key(s, id)
    ensures forall other :: other in s.phase && Key(s, other) == Key(s, id) && other != id ==>
      !Leasing(s.phase[other]) && other !in s.q.keys
  {
    assert BuildQueue.Exclusive(s.q) by {
      hide BuildQueue.DistinctPending, BuildQueue.Bounded, BuildQueue.Conserved, BuildQueue.Ordered,
           BuildQueue.Saturated, Leases, Numbered, Owned, Accounted;
    }
    hide BuildQueue.DistinctPending, BuildQueue.Bounded, BuildQueue.Conserved, BuildQueue.Ordered,
         BuildQueue.Saturated, Numbered, Owned, Accounted;
  }

  /** In every run: while a build is between acquiring and releasing its builder it holds the
      lease and the key, and no other build does. */
  lemma NestedWindows(path: seq<State>, es: seq<Event>, k: nat, id: string)
    requires Starts(path, es) && k <= |es|
    requires id in path[k].phase && Key(path[k], id) != "" && Leasing(path[k].phase[id])
    ensures var s := path[k];
      && Key(s, id) in s.acquired && s.acquired[Key(s, id)] == id
      && id in s.q.keys && s.q.keys[id] == Key(s, id)
      && forall other :: other in s.phase && Key(s, other) == Key(s, id) && other != id ==>
           !Leasing(s.phase[other]) && other !in s.q.keys
  {
    hide Enabled, Apply, Inv;
    RunInv(path, es, k);
    LeaseInWindow(path[k], id);
  }

  /** In every run: a build about to acquire its builder finds it held if and only if an
      earlier release was given up. */
  lemma AcquireMeetsOnlyLeaks(path: seq<State>, es: seq<Event>, k: nat, id: string)
    requires Starts(path, es) && k <= |es| && InPhase(path[k], id, Queued) && Key(path[k], id) != ""
    ensures Key(path[k], id) in path[k].acquired <==> Key(path[k], id) in path[k].leaked
  {
    hide Enabled, Apply, BuildQueue.Inv, Numbered, Owned, Accounted;
    RunInv(path, es, k);
    var s := path[k];
    if Key(s, id) in s.acquired && Key(s, id) !in s.leaked {
      LeaseInWindow(s, s.acquired[Key(s, id)]);
    }
  }

  /* ---- the VM and its lease ---- */

  /** Running VM `i` is that of build `id`, which holds the builder whose disk it has. */
  ghost predicate InLease(s: State, id: string, i: nat) {
    && BootedOn(s, id, i) && i in s.live && Key(s, id) == s.live[i]
    && s.live[i] in s.acquired && s.acquired[s.live[i]] == id
    && id in s.q.keys && s.q.keys[id] == s.live[i]
  }

  /** In every run: a running VM on a builder's disk is inside the lease of its build if and only if
      its deletion has not failed. */
  lemma VMInLeaseIff(path: seq<State>, es: seq<Event>, k: nat, i: nat)
    requires Starts(path, es) && k <= |es| && i in path[k].live && path[k].live[i] != ""
    ensures (exists id :: InLease(path[k], id, i)) <==> i !in path[k].strays
  {
    hide Enabled, Apply, BuildQueue.Inv, Numbered, Window, Leases;
    RunInv(path, es, k);
    var s := path[k];
    if i !in s.strays {
      var id :| BootedOn(s, id, i);
      LeaseInWindow(s, id);
      assert InLease(s, id, i);
    }
  }

  /** In every run: only the reaper can delete the VM of a build that has not ended it, and only on
      a builder that was made again in the course of the same pass, after the reaper had marked its
      predecessor. */
  lemma KilledOnlyByReaper(path: seq<State>, es: seq<Event>, k: nat, id: string, i: nat)
    requires Starts(path, es) && k < |es| && BootedOn(path[k], id, i)
    ensures i in Killed(path[k], es[k]) <==> es[k].ReapVisit? && es[k].inst == i
    ensures i in Killed(path[k], es[k]) ==>
      && path[k].reaper.builder == Key(path[k], id) != ""
      && Key(path[k], id) in path[k].builders && path[k].builders[Key(path[k], id)].Ready?
      && exists j :: MadeAgainAt(path, es, j, k, Key(path[k], id))
  {
    hide Enabled, Apply, Inv, Killed;
    RunInv(path, es, k);
    KillsByReaper(path[k], es[k], id, i);
    if i in Killed(path[k], es[k]) {
      VisitIsClearing(path[k], es[k]);
      MadeAgain(path, es, k, Key(path[k], id));
    }
  }

  predicate ReapsAt(s: State, b: string) { !s.reaper.Resting? && s.reaper.builder == b }

  /** Builder `b` is made again in step `j` under a pass of the reaper over `b` that still lasts at `k`. */
  ghost predicate MadeAgainAt(path: seq<State>, es: seq<Event>, j: nat, k: nat, b: string)
    requires IsRun(path, es) && k <= |es|
  {
    j < k && Recreates(path[j], es[j], b) && forall m :: j <= m <= k ==> ReapsAt(path[m], b)
  }

  /** A builder the reaper is at is being deleted, or gone. */
  predicate Doomed(s: State, b: string) {
    ReapsAt(s, b) && b in s.builders ==> s.builders[b].Deleting?
  }

  lemma NextDoomed(s: State, e: Event, b: string)
    requires Enabled(s, e) && Doomed(s, b) && !Recreates(s, e, b)
    ensures Doomed(Apply(s, e), b)
  {
    hide HasBuilds, BuildQueue.Enqueue, BuildQueue.Cancel, BuildQueue.Release, BuildQueue.Complete;
  }

  /** The mark that begins a pass dooms the builder. */
  lemma StaysAt(s: State, e: Event, b: string)
    requires Enabled(s, e) && !Doomed(Apply(s, e), b)
    ensures ReapsAt(s, b)
  {
    hide HasBuilds, BuildQueue.Enqueue, BuildQueue.Cancel, BuildQueue.Release, BuildQueue.Complete;
  }

  /** In every run: a builder under the reaper that is not being deleted was made again during
      the pass. */
  lemma {:induction false} MadeAgain(path: seq<State>, es: seq<Event>, k: nat, b: string)
    requires Starts(path, es) && k <= |es| && !Doomed(path[k], b)
    ensures exists j :: MadeAgainAt(path, es, j, k, b)
    decreases k
  {
    hide Enabled, Apply, Recreates;
    var i := k - 1;
    StaysAt(path[i], es[i], b);
    if Recreates(path[i], es[i], b) {
      assert MadeAgainAt(path, es, i, k, b);
    } else {
      if Doomed(path[i], b) {
        NextDoomed(path[i], es[i], b);
      }
      MadeAgain(path, es, i, b);
      var j :| MadeAgainAt(path, es, j, i, b);
      assert MadeAgainAt(path, es, j, k, b);
    }
  }

  lemma KillsByReaper(s: State, e: Event, id: string, i: nat)
    requires Inv(s) && Enabled(s, e) && BootedOn(s, id, i)
    ensures i in Killed(s, e) <==> e.ReapVisit? && e.inst == i
    ensures i in Killed(s, e) ==>
      s.reaper.builder == Key(s, id) != "" && Key(s, id) in s.builders && s.builders[Key(s, id)].Ready?
  {
    hide BuildQueue.Inv, Window, HasBuilds, Numbered, Accounted;
  }

  /* ---- one VM per disk ---- */

  /** Every running VM of builder `b` has its record on the disk. */
  ghost predicate Listed(s: State, b: string) {
    forall i :: i in s.live && s.live[i] == b ==> i in Attached(s, b)
  }

  /** No VM runs on the disk of builder `b`. */
  ghost predicate Vacant(s: State, b: string) {
    forall i :: i in s.live ==> s.live[i] != b
  }

  /** The build has acquired `b` and not booted yet. */
  predicate HoldsOn(s: State, id: string, b: string) { InPhase(s, id, Holding) && Key(s, id) == b }

  /** At most one VM runs on the disk of `b`, and none before its holder boots one. */
  ghost predicate Alone(s: State, b: string) {
    && (forall i, j :: i in s.live && j in s.live && s.live[i] == s.live[j] == b ==> i == j)
    && (forall id :: HoldsOn(s, id, b) ==> Vacant(s, b))
  }

  lemma AloneKept(s: State, r: State, b: string)
    requires Alone(s, b)
    requires forall i :: i in r.live ==> i in s.live && r.live[i] == s.live[i]
    requires forall id :: HoldsOn(r, id, b) ==> HoldsOn(s, id, b)
    ensures Alone(r, b)
  {
    forall id | HoldsOn(r, id, b)
      ensures Vacant(r, b)
    {
      assert HoldsOn(s, id, b);
    }
  }

  /** The reaper detaches the record of a VM that is running. */
  predicate Loses(s: State, e: Event, b: string) {
    e.ReapDetach? && s.reaper.Detaching? && s.reaper.builder == b && e.inst in s.live && s.live[e.inst] == b
  }

  /** The builder is made again while the reaper is still at its predecessor. */
  predicate Recreates(s: State, e: Event, b: string) {
    e.CreateBuilder? && e.builder == b && !s.reaper.Resting? && s.reaper.builder == b
  }

  /** Records follow the running VMs after every event but one, and that one always loses a record. */
  lemma NextListed(s: State, e: Event, b: string)
    requires Inv(s) && Listed(s, b) && Enabled(s, e) && b != ""
    ensures Listed(Apply(s, e), b) <==> !Loses(s, e, b)
  {
    hide BuildQueue.Inv, Window, Leases, HasBuilds, Accounted, BuildQueue.Enqueue, BuildQueue.Cancel,
         BuildQueue.Release, BuildQueue.Complete;
  }

  lemma FollowAlone(s: State, q: BuildQueue.Queue, b: string)
    requires Window(s) && Alone(s, b) && Grows(s.q, q)
    ensures Alone(Follow(s, q), b)
  {
    hide Window, Grows, Alone;
    FollowContinues(s, q);
    AloneKept(s, Follow(s, q), b);
  }

  lemma ReleasedAlone(s: State, id: string, b: string)
    requires Window(s) && BuildQueue.Inv(s.q) && Alone(s, b) && InPhase(s, id, Returned)
    ensures Alone(Apply(s, ReleaseKey(id)), b)
  {
    hide BuildQueue.Inv, Alone, Window, Grows;
    var mid := Move(s, id, KeyReleased).(q := AfterRelease(s.q, id));
    LetGoWindow(s, id);
    ReleaseGrows(s.q, id);
    AloneKept(s, mid, b);
    FollowAlone(mid, BuildQueue.Release(s.q, id), b);
  }

  lemma FinishedAlone(s: State, id: string, b: string)
    requires Window(s) && BuildQueue.Inv(s.q) && Alone(s, b) && InPhase(s, id, KeyReleased)
    ensures Alone(Apply(s, Finish(id)), b)
  {
    hide BuildQueue.Inv, Alone, Window, Grows;
    var mid := s.(q := BuildQueue.Drop(s.q, id), phase := s.phase - {id});
    PhaseIsActive(s, id);
    FinishedIsGone(s.q, id);
    FollowDropped(s, id, BuildQueue.Complete(s.q, id));
    DropWindow(s, id);
    CompleteGrows(s.q, id);
    AloneKept(s, mid, b);
    FollowAlone(mid, BuildQueue.Complete(s.q, id), b);
  }

  /** A build that holds the builder of a booted VM is the VM's own. */
  lemma OneHolder(s: State, id: string, other: string)
    requires Leases(s) && id in s.phase && other in s.phase && Key(s, id) == Key(s, other) != ""
    requires Leasing(s.phase[id]) && Leasing(s.phase[other])
    ensures id == other
  {
  }

  lemma BootAlone(s: State, r: State, id: string, b: string)
    requires Leases(s) && Numbered(s) && Alone(s, b) && MayBoot(s, id) && b != ""
    requires r.q == s.q && r.phase == s.phase[id := Booted(s.nextInst)] && r.live == s.live[s.nextInst := Key(s, id)]
    ensures Alone(r, b)
  {
    if Key(s, id) == b {
      assert HoldsOn(s, id, b);
      forall other
        ensures !HoldsOn(r, other, b)
      {
        if HoldsOn(r, other, b) {
          OneHolder(s, id, other);
          assert false;
        }
      }
    } else {
      forall other | HoldsOn(r, other, b)
        ensures Vacant(r, b)
      {
        assert HoldsOn(s, other, b);
      }
    }
  }

  lemma AcquireAlone(s: State, r: State, id: string, b: string)
    requires Listed(s, b) && Alone(s, b) && Enabled(s, Acquire(id))
    requires r.q == s.q && r.phase == s.phase[id := Holding] && r.live == s.live - Attached(s, Key(s, id))
    ensures Alone(r, b)
  {
    if Key(s, id) == b {
      assert Vacant(r, b);
    } else {
      hide Alone;
      AloneKept(s, r, b);
    }
  }

  /** Events that neither start a build nor boot a VM nor acquire a builder. */
  lemma OthersAlone(s: State, e: Event, b: string)
    requires Alone(s, b) && Enabled(s, e)
    requires !e.Submit? && !e.Withdrawn? && !e.ReleaseKey? && !e.Finish? && !e.Acquire? && !e.Boot?
    ensures Alone(Apply(s, e), b)
  {
    hide HasBuilds, Alone;
    AloneKept(s, Apply(s, e), b);
  }

  lemma NextAlone(s: State, e: Event, b: string)
    requires Inv(s) && Listed(s, b) && Alone(s, b) && Enabled(s, e) && b != ""
    ensures Alone(Apply(s, e), b)
  {
    hide BuildQueue.Inv, Window, Leases, Numbered, Owned, Accounted, Listed, Alone, HasBuilds, Grows;
    match e
    case Submit(id, key) =>
      EnqueueGrows(s.q, id, key);
      FollowAlone(s, BuildQueue.Enqueue(s.q, id, key), b);
    case Withdrawn(id) =>
      CancelGrows(s.q, id);
      FollowAlone(s, BuildQueue.Cancel(s.q, id), b);
    case ReleaseKey(id) => ReleasedAlone(s, id, b);
    case Finish(id) => FinishedAlone(s, id, b);
    case Acquire(id) => AcquireAlone(s, Apply(s, e), id, b);
    case Boot(id) => BootAlone(s, Apply(s, e), id, b);
    case _ => OthersAlone(s, e, b);
  }

  lemma InitialAlone(n: int, builders: map<string, BuilderStatus>, b: string)
    ensures Listed(Initial(n, builders), b) && Alone(Initial(n, builders), b)
  {}

  lemma {:induction false} RunAlone(path: seq<State>, es: seq<Event>, k: nat, b: string)
    requires Starts(path, es) && k <= |es| && b != ""
    requires forall j :: 0 <= j < k ==> !Loses(path[j], es[j], b)
    ensures Listed(path[k], b) && Alone(path[k], b)
    decreases k
  {
    hide Enabled, Apply, Inv, Listed, Alone, Loses;
    if k == 0 {
      var n, builders :| path[0] == Initial(n, builders);
      InitialAlone(n, builders, b);
    } else {
      RunAlone(path, es, k - 1, b);
      RunInv(path, es, k - 1);
      NextListed(path[k - 1], es[k - 1], b);
      NextAlone(path[k - 1], es[k - 1], b);
    }
  }

  /** One VM per disk, deletions that fail included: in every run in which the reaper detaches no
      record of a VM running on builder `b`, no two VMs run on `b`'s disk, and a build that has
      acquired `b` finds none. */
  lemma OneVMPerDisk(path: seq<State>, es: seq<Event>, k: nat, b: string)
    requires Starts(path, es) && k <= |es| && b != ""
    requires forall j :: 0 <= j < k ==> !Loses(path[j], es[j], b)
    ensures forall i, j :: i in path[k].live && j in path[k].live && path[k].live[i] == path[k].live[j] == b ==> i == j
    ensures forall id :: HoldsOn(path[k], id, b) ==> Vacant(path[k], b)
  {
    hide Enabled, Apply, Loses;
    RunAlone(path, es, k, b);
  }

  /** The next acquisition removes a stray before the builder is held, or fails. */
  lemma AcquireRemovesStrays(s: State, e: Event)
    requires Inv(s) && Enabled(s, e) && (e.Acquire? || e.AcquireFails?) && Listed(s, Key(s, e.id))
    ensures e.Acquire? ==>
      && Key(s, e.id) in Apply(s, e).acquired && Apply(s, e).acquired[Key(s, e.id)] == e.id
      && forall i :: i in Apply(s, e).live ==> Apply(s, e).live[i] != Key(s, e.id)
    ensures e.AcquireFails? ==> Apply(s, e).acquired == s.acquired && Listed(Apply(s, e), Key(s, e.id))
  {
    hide BuildQueue.Inv, Window, Leases, Numbered, Accounted;
  }

  /* ---- builders that are not made again under the reaper ---- */

  /** While the reaper is at builder `b`, nothing can be booted on it, and it knows every VM still
      running there. */
  ghost predicate Undisturbed(s: State, b: string) {
    !s.reaper.Resting? && s.reaper.builder == b ==>
      && (b in s.builders ==> s.builders[b].Deleting?)
      && (s.reaper.Clearing? ==> forall i :: i in s.live && s.live[i] == b ==> i in s.reaper.todo)
      && (s.reaper.Detaching? ==> forall i :: i in s.live ==> s.live[i] != b)
  }

  lemma NextUndisturbed(s: State, e: Event, b: string)
    requires Inv(s) && Listed(s, b) && Undisturbed(s, b) && Enabled(s, e) && !Recreates(s, e, b) && b != ""
    ensures Undisturbed(Apply(s, e), b) && !Loses(s, e, b)
  {
    hide BuildQueue.Inv, Window, HasBuilds, Numbered, Owned, Accounted, BuildQueue.Enqueue, BuildQueue.Cancel, BuildQueue.Release,
         BuildQueue.Complete;
  }

  lemma {:induction false} RunUndisturbed(path: seq<State>, es: seq<Event>, k: nat, b: string)
    requires Starts(path, es) && k <= |es| && b != ""
    requires forall j :: 0 <= j < k ==> !Recreates(path[j], es[j], b)
    ensures Undisturbed(path[k], b)
    ensures forall j :: 0 <= j < k ==> !Loses(path[j], es[j], b)
    decreases k
  {
    hide Enabled, Apply, Inv, Listed, Alone, Loses, Recreates;
    if k > 0 {
      hide Undisturbed;
      RunUndisturbed(path, es, k - 1, b);
      RunAlone(path, es, k - 1, b);
      RunInv(path, es, k - 1);
      NextUndisturbed(path[k - 1], es[k - 1], b);
    }
  }

  /** In every run in which builder `b` is not made again while the reaper is still at its predecessor,
      no build on `b` has its VM deleted under it, and no two VMs ever run on `b`'s disk. */
  lemma ReaperSparesBuilds(path: seq<State>, es: seq<Event>, k: nat, b: string)
    requires Starts(path, es) && k <= |es| && b != ""
    requires forall j :: 0 <= j < k ==> !Recreates(path[j], es[j], b)
    ensures forall i, j :: i in path[k].live && j in path[k].live && path[k].live[i] == path[k].live[j] == b ==> i == j
    ensures k < |es| ==> forall id, i: nat :: BootedOn(path[k], id, i) && Key(path[k], id) == b ==> i !in Killed(path[k], es[k])
  {
    hide Enabled, Apply, Inv, Loses, Recreates, Killed;
    RunUndisturbed(path, es, k, b);
    OneVMPerDisk(path, es, k, b);
    if k < |es| {
      forall id, i: nat | BootedOn(path[k], id, i) && Key(path[k], id) == b
        ensures i !in Killed(path[k], es[k])
      {
        KilledOnlyByReaper(path, es, k, id, i);
        VisitIsClearing(path[k], es[k]);
      }
    }
  }

  lemma VisitIsClearing(s: State, e: Event)
    requires Enabled(s, e)
    ensures e.ReapVisit? ==> s.reaper.Clearing?
  {
    hide HasBuilds;
  }
}
