/** The ordering of a build around its builder, as in lib/builds/manager.go: enqueue under
    the builder's key, acquire the builder, boot a VM on its disk, delete the VM, release
    the builder, release the key, complete. The queue is the one of module BuildQueue;
    the reaper and the builder's deletion, reset and creation run beside it. Deleting a VM may fail
    and leave it running, and the reaper's clearing runs without the manager's lock, record by record.

    Instances are numbered afresh on every boot. A builder's disk lists the instances
    with an attachment record, live or stale. */
module BuildExecution {
  import opened BuildQueue

  datatype Phase =
    | Queued                      // started by the queue, builder not acquired
    | Holding                     // builder acquired, no VM yet
    | Booted(inst: nat)           // VM booted
    | VMDone                      // VM deleted as far as that went, or never booted
    | Returned                    // executeBuild has returned
    | KeyReleased                 // post-build work

  datatype BuilderStatus = Ready | Pruning | Deleting

  /** Where the reaper's only goroutine is: between builders, past the mark, working through the
      records it read, or detaching the records it found on its second look. */
  datatype Reaper =
    | Resting
    | Marked(builder: string)
    | Clearing(builder: string, todo: set<nat>, deleted: bool)
    | Detaching(builder: string, todo: set<nat>)

  /** `live` maps each running VM to the builder whose disk it has, the empty string for
      none. `strays` are the VMs whose deletion by their build failed with the VM running;
      it only records history. */
  datatype State = State(
    q: Queue,
    phase: map<string, Phase>,
    acquired: map<string, string>,
    leaked: set<string>,
    builders: map<string, BuilderStatus>,
    attached: map<string, set<nat>>,
    live: map<nat, string>,
    strays: set<nat>,
    reaper: Reaper,
    nextInst: nat)

  datatype Event =
    | Submit(id: string, key: string)
    | Withdrawn(id: string)
    | GiveUp(id: string)
    | Acquire(id: string)
    | AcquireFails(id: string, killed: set<nat>, dropped: set<nat>)
    | Boot(id: string)
    | BootFails(id: string, recorded: bool)
    | DeleteVM(id: string, detached: bool)
    | DeleteVMFails(id: string)
    | ReleaseLease(id: string)
    | LeaseLeaks(id: string)
    | ReleaseKey(id: string)
    | Finish(id: string)
    | Vanish(inst: nat, detached: bool)
    | ReapMark(builder: string)
    | ReapFetch
    | ReapVisit(inst: nat, found: bool, detached: bool)
    | ReapRefetch
    | ReapDetach(inst: nat)
    | ReapStop
    | StartDelete(builder: string)
    | FinishDelete(builder: string)
    | StartReset(builder: string)
    | FinishReset(builder: string)
    | CreateBuilder(builder: string)

  function Key(s: State, id: string): string {
    if id in s.q.active then s.q.active[id].key else ""
  }

  function Attached(s: State, builder: string): set<nat> {
    if builder in s.attached then s.attached[builder] else {}
  }

  predicate InPhase(s: State, id: string, p: Phase) {
    id in s.phase && s.phase[id] == p
  }

  /** BuildQueue.HasSerialKey: an active or pending build uses the key. */
  predicate HasBuilds(q: Queue, key: string) {
    key != "" && (key in q.keys.Values || exists i :: 0 <= i < |q.pending| && q.pending[i].key == key)
  }

  /** The builder holds no lease, and every queued or running build is elsewhere. */
  predicate Idle(s: State, builder: string) {
    builder !in s.acquired && !HasBuilds(s.q, builder)
  }

  /** The builder can be acquired. */
  predicate Available(s: State, b: string) {
    b !in s.acquired && b in s.builders && s.builders[b].Ready?
  }

  /** Where a build may boot its VM; an attached disk takes no second writer. */
  predicate MayBoot(s: State, id: string) {
    InPhase(s, id, if Key(s, id) != "" then Holding else Queued) && (Key(s, id) != "" ==> Attached(s, Key(s, id)) == {})
  }

  function Todo(r: Reaper): set<nat> {
    if r.Clearing? || r.Detaching? then r.todo else {}
  }

  predicate Enabled(s: State, e: Event) {
    match e
    case Submit(id, key) => true
    case Withdrawn(id) => true
    case GiveUp(id) => InPhase(s, id, Queued)
    case Acquire(id) => InPhase(s, id, Queued) && Key(s, id) != "" && Available(s, Key(s, id))
    case AcquireFails(id, killed, dropped) =>
      && InPhase(s, id, Queued) && Key(s, id) != ""
      && killed <= Attached(s, Key(s, id)) && dropped <= Attached(s, Key(s, id)) && dropped * s.live.Keys <= killed
      && (!Available(s, Key(s, id)) ==> killed == {} && dropped == {})
    case Boot(id) => MayBoot(s, id)
    case BootFails(id, recorded) => InPhase(s, id, if Key(s, id) != "" then Holding else Queued)
    case DeleteVM(id, detached) => id in s.phase && s.phase[id].Booted?
    case DeleteVMFails(id) => id in s.phase && s.phase[id].Booted?
    case ReleaseLease(id) => InPhase(s, id, VMDone)
    case LeaseLeaks(id) => InPhase(s, id, VMDone) && Key(s, id) != ""
    case ReleaseKey(id) => InPhase(s, id, Returned)
    case Finish(id) => InPhase(s, id, KeyReleased)
    case Vanish(inst, detached) => inst in s.live
    case ReapMark(b) =>
      s.reaper.Resting? && b in s.builders && (s.builders[b].Deleting? || (s.builders[b].Ready? && Idle(s, b)))
    case ReapFetch => s.reaper.Marked?
    case ReapVisit(inst, found, detached) =>
      s.reaper.Clearing? && inst in s.reaper.todo && (found || (inst !in s.live && detached))
    case ReapRefetch => s.reaper.Clearing? && s.reaper.todo == {} && s.reaper.deleted
    case ReapDetach(inst) => s.reaper.Detaching? && inst in s.reaper.todo
    case ReapStop => !s.reaper.Resting?
    case StartDelete(b) => b in s.builders && !s.builders[b].Pruning? && Idle(s, b) && Attached(s, b) == {}
    case FinishDelete(b) => b in s.builders && s.builders[b].Deleting? && Attached(s, b) == {}
    case StartReset(b) => b in s.builders && s.builders[b].Ready? && Idle(s, b) && Attached(s, b) == {}
    case FinishReset(b) => b in s.builders && s.builders[b].Pruning? && Attached(s, b) == {}
    case CreateBuilder(b) => b !in s.builders
  }

  /** Builds the queue has just started begin at the first phase; completed ones leave. */
  function Follow(s: State, q: Queue): State {
    s.(q := q, phase := map id | id in q.active :: if id in s.phase then s.phase[id] else Queued)
  }

  function Move(s: State, id: string, p: Phase): State {
    s.(phase := s.phase[id := p])
  }

  /** The record of an instance leaves a builder's disk. */
  function Detached(s: State, b: string, gone: set<nat>): map<string, set<nat>> {
    if b in s.attached then s.attached[b := s.attached[b] - gone] else s.attached
  }

  function Recorded(s: State, b: string, inst: nat): map<string, set<nat>> {
    if b != "" then s.attached[b := Attached(s, b) + {inst}] else s.attached
  }

  function Apply(s: State, e: Event): State
    requires Enabled(s, e)
  {
    match e
    case Submit(id, key) => Follow(s, Enqueue(s.q, id, key))
    case Withdrawn(id) => Follow(s, Cancel(s.q, id))
    case GiveUp(id) => Move(s, id, Returned)
    case Acquire(id) =>
      Move(s, id, Holding).(acquired := s.acquired[Key(s, id) := id],
                            live := s.live - Attached(s, Key(s, id)),
                            attached := Detached(s, Key(s, id), Attached(s, Key(s, id))))
    case AcquireFails(id, killed, dropped) =>
      Move(s, id, Returned).(live := s.live - killed, attached := Detached(s, Key(s, id), dropped))
    case Boot(id) =>
      Move(s, id, Booted(s.nextInst)).(live := s.live[s.nextInst := Key(s, id)],
                                       attached := Recorded(s, Key(s, id), s.nextInst),
                                       nextInst := s.nextInst + 1)
    case BootFails(id, recorded) =>
      Move(s, id, VMDone).(attached := if recorded then Recorded(s, Key(s, id), s.nextInst) else s.attached,
                           nextInst := s.nextInst + 1)
    case DeleteVM(id, detached) =>
      Move(s, id, VMDone).(live := s.live - {s.phase[id].inst},
                           attached := if detached then Detached(s, Key(s, id), {s.phase[id].inst}) else s.attached)
    case DeleteVMFails(id) => Move(s, id, VMDone).(strays := s.strays + {s.phase[id].inst})
    case ReleaseLease(id) =>
      Move(s, id, Returned).(acquired := if Key(s, id) != "" then s.acquired - {Key(s, id)} else s.acquired)
    case LeaseLeaks(id) => Move(s, id, Returned).(leaked := s.leaked + {Key(s, id)})
    case ReleaseKey(id) => Follow(Move(s, id, KeyReleased), Release(s.q, id))
    case Finish(id) => Follow(s, Complete(s.q, id))
    case Vanish(inst, detached) =>
      s.(live := s.live - {inst}, attached := if detached then Detached(s, s.live[inst], {inst}) else s.attached)
    case ReapMark(b) => s.(builders := s.builders[b := Deleting], reaper := Marked(b))
    case ReapFetch => s.(reaper := Clearing(s.reaper.builder, Attached(s, s.reaper.builder), false))
    case ReapVisit(inst, found, detached) =>
      s.(live := s.live - {inst},
         attached := if detached then Detached(s, s.reaper.builder, {inst}) else s.attached,
         reaper := Clearing(s.reaper.builder, s.reaper.todo - {inst}, s.reaper.deleted || found))
    case ReapRefetch => s.(reaper := Detaching(s.reaper.builder, Attached(s, s.reaper.builder)))
    case ReapDetach(inst) =>
      s.(attached := Detached(s, s.reaper.builder, {inst}),
         reaper := Detaching(s.reaper.builder, s.reaper.todo - {inst}))
    case ReapStop => s.(reaper := Resting)
    case StartDelete(b) => s.(builders := s.builders[b := Deleting])
    case FinishDelete(b) => s.(builders := s.builders - {b}, attached := s.attached - {b})
    case StartReset(b) => s.(builders := s.builders[b := Pruning])
    case FinishReset(b) => s.(builders := s.builders[b := Ready])
    case CreateBuilder(b) => s.(builders := s.builders[b := Ready])
  }

  /** Instances an event deletes as stale. */
  function Killed(s: State, e: Event): set<nat> {
    match e
    case Acquire(id) => Attached(s, Key(s, id))
    case AcquireFails(id, killed, _) => killed
    case ReapVisit(inst, _, _) => {inst}
    case _ => {}
  }

  /* ---- what every event keeps ---- */

  predicate Leasing(p: Phase) {
    p.Holding? || p.Booted? || p.VMDone?
  }

  /** A keyed build holds its key until it has returned from the build. */
  ghost predicate Window(s: State) {
    && s.phase.Keys == s.q.active.Keys
    && forall id :: id in s.phase && Key(s, id) != "" ==> (id in s.q.keys <==> !s.phase[id].KeyReleased?)
  }

  /** A lease is held by the build whose phase says so, or has leaked. */
  ghost predicate Leases(s: State) {
    && (forall id :: id in s.phase && Key(s, id) != "" && Leasing(s.phase[id]) ==>
          Key(s, id) in s.acquired && s.acquired[Key(s, id)] == id && Key(s, id) !in s.leaked)
    && (forall b :: b in s.acquired && b !in s.leaked ==>
          b != "" && s.acquired[b] in s.phase && Key(s, s.acquired[b]) == b && Leasing(s.phase[s.acquired[b]]))
    && (forall b :: b in s.acquired ==> b in s.builders && s.builders[b].Ready?)
    && s.leaked <= s.acquired.Keys
  }

  predicate BootedOn(s: State, id: string, i: nat) { InPhase(s, id, Booted(i)) }

  /** Every instance number in use has been handed out. */
  ghost predicate Numbered(s: State) {
    && (forall id, i: nat :: BootedOn(s, id, i) ==> i < s.nextInst)
    && (forall b :: b in s.attached ==> forall i :: i in s.attached[b] ==> i < s.nextInst)
    && (forall i :: i in s.live || i in s.strays || i in Todo(s.reaper) ==> i < s.nextInst)
  }

  /** A build's VM is its own: on no disk, and in none of the reaper's records, but its own builder's. */
  ghost predicate Owned(s: State) {
    && (forall id, i: nat :: BootedOn(s, id, i) ==> i !in s.strays && (i in s.live ==> s.live[i] == Key(s, id)))
    && (forall id, i: nat, b :: BootedOn(s, id, i) && b in s.attached && i in s.attached[b] ==> b == Key(s, id) != "")
    && (forall id, i: nat :: BootedOn(s, id, i) && i in Todo(s.reaper) ==> s.reaper.builder == Key(s, id) != "")
    && (forall id, other, i: nat :: BootedOn(s, id, i) && BootedOn(s, other, i) ==> id == other)
  }

  /** A running VM belongs to a build that has not ended it, or is a stray. */
  ghost predicate Accounted(s: State) {
    forall i :: i in s.live ==> i in s.strays || exists id :: BootedOn(s, id, i)
  }

  ghost predicate Inv(s: State) {
    BuildQueue.Inv(s.q) && Window(s) && Leases(s) && Numbered(s) && Owned(s) && Accounted(s)
  }

  /* ---- the queue's part ---- */

  /** Running builds keep their entries and keys; new ones start with their key held. */
  ghost predicate Grows(q: Queue, r: Queue) {
    && (forall id :: id in q.active ==> id in r.active && r.active[id] == q.active[id] && (id in r.keys <==> id in q.keys))
    && (forall id :: id in r.active && id !in q.active && r.active[id].key != "" ==> id in r.keys)
  }

  lemma GrowsTransitive(a: Queue, b: Queue, c: Queue)
    requires Grows(a, b) && Grows(b, c)
    ensures Grows(a, c)
  {
  }

  lemma {:induction false} StartPendingGrows(q: Queue)
    requires DistinctPending(q)
    ensures Grows(q, StartPending(q))
    decreases |q.pending|
  {
    var i := FirstFree(q, 0);
    if |q.active| < q.limit && i < |q.pending| {
      TakeDistinct(q, i);
      assert Grows(q, Take(q, i));
      hide Grows;
      StartPendingGrows(Take(q, i));
      GrowsTransitive(q, Take(q, i), StartPending(q));
    }
  }

  lemma EnqueueGrows(q: Queue, id: string, key: string)
    ensures Grows(q, Enqueue(q, id, key))
  {
  }

  lemma CompleteGrows(q: Queue, id: string)
    requires BuildQueue.Inv(q)
    ensures Grows(Drop(q, id), Complete(q, id))
  {
    assert DistinctPending(Drop(q, id)) by { hide Exclusive, Bounded, Conserved, Ordered, Saturated; }
    hide BuildQueue.Inv, Grows;
    StartPendingGrows(Drop(q, id));
  }

  lemma {:induction false} StartPendingStartsPending(q: Queue, id: string)
    requires id !in q.active && forall i :: 0 <= i < |q.pending| ==> q.pending[i].id != id
    ensures id !in StartPending(q).active
    decreases |q.pending|
  {
    var i := FirstFree(q, 0);
    if |q.active| < q.limit && i < |q.pending| {
      WithoutAt(q.pending, i);
      StartPendingStartsPending(Take(q, i), id);
    }
  }

  lemma FinishedIsGone(q: Queue, id: string)
    requires BuildQueue.Inv(q) && id in q.active
    ensures id !in Complete(q, id).active
  {
    forall i | 0 <= i < |q.pending| ensures q.pending[i].id != id {
      PendingNotActive(q, i);
    }
    hide BuildQueue.Inv;
    StartPendingStartsPending(Drop(q, id), id);
  }

  /** The queue once a build has let go of its key, if it held one. */
  function AfterRelease(q: Queue, id: string): Queue {
    if id in q.keys then LetGo(q, id) else q
  }

  lemma HandOverGrows(q: Queue, id: string)
    requires DistinctPending(q)
    ensures Grows(AfterRelease(q, id), HandOver(q, id)) && DistinctPending(HandOver(q, id))
  {
    if id in q.keys {
      var i := FindKey(q.pending, q.keys[id]);
      if i < |q.pending| {
        TakeDistinct(LetGo(q, id), i);
      }
    }
  }

  lemma ReleaseGrows(q: Queue, id: string)
    requires BuildQueue.Inv(q)
    ensures Grows(AfterRelease(q, id), Release(q, id))
  {
    assert DistinctPending(q) by { hide Exclusive, Bounded, Conserved, Ordered, Saturated; }
    hide BuildQueue.Inv, DistinctPending, Grows;
    HandOverGrows(q, id);
    StartPendingGrows(HandOver(q, id));
    GrowsTransitive(AfterRelease(q, id), HandOver(q, id), Release(q, id));
  }

  lemma FollowWindow(s: State, q: Queue)
    requires Window(s) && Grows(s.q, q)
    ensures Window(Follow(s, q))
  {
  }

  /** Known builds keep their phase and key; builds just started are queued. */
  ghost predicate Continues(s: State, r: State) {
    && (forall id :: id in s.phase ==> id in r.phase && r.phase[id] == s.phase[id] && Key(r, id) == Key(s, id))
    && (forall id :: id in r.phase && id !in s.phase ==> r.phase[id].Queued?)
  }

  lemma FollowContinues(s: State, q: Queue)
    requires Window(s) && Grows(s.q, q)
    ensures Continues(s, Follow(s, q))
  {
  }

  lemma ContinuesLeases(s: State, r: State)
    requires Leases(s) && Continues(s, r)
    requires r == s.(q := r.q, phase := r.phase)
    ensures Leases(r)
  {
  }

  /* ---- the machines ---- */

  /** Nobody boots, VMs only go away, records only go away or are those of instances that never ran, and
      whoever leaves its VM leaves it dead or a stray. */
  ghost predicate Quiets(s: State, r: State) {
    && s.nextInst <= r.nextInst
    && (forall id, i: nat :: BootedOn(r, id, i) ==> BootedOn(s, id, i) && Key(r, id) == Key(s, id) && i !in r.strays)
    && (forall id, i: nat :: BootedOn(s, id, i) && i in r.live ==> BootedOn(r, id, i) || i in r.strays)
    && (forall i :: i in r.live ==> i in s.live && r.live[i] == s.live[i])
    && s.strays <= r.strays && (forall i :: i in r.strays ==> i in s.strays || i < s.nextInst)
    && (forall b, i :: b in r.attached && i in r.attached[b] ==>
          (b in s.attached && i in s.attached[b]) || s.nextInst <= i < r.nextInst)
    && (forall i :: i in Todo(r.reaper) ==>
          || (i in Todo(s.reaper) && r.reaper.builder == s.reaper.builder)
          || (r.reaper.builder in s.attached && i in s.attached[r.reaper.builder]))
  }

  lemma QuietsNumbered(s: State, r: State)
    requires Numbered(s) && Quiets(s, r)
    ensures Numbered(r)
  {
  }

  lemma QuietsOwned(s: State, r: State)
    requires Numbered(s) && Owned(s) && Quiets(s, r)
    ensures Owned(r)
  {
  }

  lemma QuietsAccounted(s: State, r: State)
    requires Accounted(s) && Quiets(s, r)
    ensures Accounted(r)
  {
    forall i | i in r.live && i !in r.strays
      ensures exists id :: BootedOn(r, id, i)
    {
      var id :| BootedOn(s, id, i);
      assert BootedOn(r, id, i);
    }
  }

  lemma QuietsKeep(s: State, r: State)
    requires Numbered(s) && Owned(s) && Accounted(s) && Quiets(s, r)
    ensures Numbered(r) && Owned(r) && Accounted(r)
  {
    hide Numbered, Owned, Accounted, Quiets;
    QuietsNumbered(s, r);
    QuietsOwned(s, r);
    QuietsAccounted(s, r);
  }

  lemma ContinuesQuiets(s: State, r: State)
    requires Owned(s) && Continues(s, r)
    requires r == s.(q := r.q, phase := r.phase)
    ensures Quiets(s, r)
  {
  }

  lemma FollowKeeps(s: State, q: Queue)
    requires Window(s) && Leases(s) && Numbered(s) && Owned(s) && Accounted(s) && Grows(s.q, q)
    ensures Window(Follow(s, q)) && Leases(Follow(s, q))
    ensures Numbered(Follow(s, q)) && Owned(Follow(s, q)) && Accounted(Follow(s, q))
  {
    hide Window, Leases, Numbered, Owned, Accounted, Continues, Grows, Quiets;
    FollowWindow(s, q);
    FollowContinues(s, q);
    ContinuesLeases(s, Follow(s, q));
    ContinuesQuiets(s, Follow(s, q));
    QuietsKeep(s, Follow(s, q));
  }

  /* ---- the events ---- */

  lemma SubmitInv(s: State, id: string, key: string)
    requires Inv(s)
    ensures Inv(Apply(s, Submit(id, key)))
  {
    hide BuildQueue.Inv, Window, Leases, Numbered, Owned, Accounted, Grows;
    EnqueueInv(s.q, id, key);
    EnqueueGrows(s.q, id, key);
    FollowKeeps(s, Enqueue(s.q, id, key));
  }

  lemma CancelGrows(q: Queue, id: string)
    ensures Grows(q, Cancel(q, id))
  {
  }

  lemma WithdrawnInv(s: State, id: string)
    requires Inv(s)
    ensures Inv(Apply(s, Withdrawn(id)))
  {
    hide BuildQueue.Inv, Window, Leases, Numbered, Owned, Accounted, Grows;
    CancelInv(s.q, id);
    CancelGrows(s.q, id);
    FollowKeeps(s, Cancel(s.q, id));
  }

  lemma ReleaseKeyInv(s: State, id: string)
    requires Inv(s) && Enabled(s, ReleaseKey(id))
    ensures Inv(Apply(s, ReleaseKey(id)))
  {
    var mid := Move(s, id, KeyReleased).(q := AfterRelease(s.q, id));
    hide BuildQueue.Inv, Window, Leases, Numbered, Owned, Accounted, Grows, Quiets;
    LetGoWindow(s, id);
    QuietLeases(s, mid, id);
    LeaveQuiets(s, mid, id);
    QuietsKeep(s, mid);
    ReleaseInv(s.q, id);
    ReleaseGrows(s.q, id);
    FollowKeeps(mid, Release(s.q, id));
  }

  lemma LetGoWindow(s: State, id: string)
    requires Window(s) && InPhase(s, id, Returned)
    ensures Window(Move(s, id, KeyReleased).(q := AfterRelease(s.q, id)))
  {
  }

  /** A build past its lease changes phase or leaves: nobody else's lease is touched. */
  lemma QuietLeases(s: State, r: State, id: string)
    requires Leases(s) && id in s.phase && !Leasing(s.phase[id])
    requires r == s.(q := r.q, phase := r.phase)
    requires r.phase - {id} == s.phase - {id} && (id in r.phase ==> !Leasing(r.phase[id]))
    requires forall other :: other != id ==> Key(r, other) == Key(s, other)
    ensures Leases(r)
  {
    SamePhase(s, r, id);
  }

  /** A build without a VM changes phase or leaves. */
  lemma LeaveQuiets(s: State, r: State, id: string)
    requires Owned(s) && id in s.phase && !s.phase[id].Booted?
    requires r == s.(q := r.q, phase := r.phase)
    requires r.phase - {id} == s.phase - {id} && (id in r.phase ==> !r.phase[id].Booted?)
    requires forall other :: other != id ==> Key(r, other) == Key(s, other)
    ensures Quiets(s, r)
  {
    SamePhase(s, r, id);
    forall other, i: nat
      ensures BootedOn(r, other, i) <==> BootedOn(s, other, i)
      ensures BootedOn(s, other, i) ==> other != id
    {
    }
  }

  lemma SamePhase(s: State, r: State, id: string)
    requires r.phase - {id} == s.phase - {id}
    ensures forall other :: other != id ==> (other in r.phase <==> other in s.phase)
    ensures forall other :: other != id && other in s.phase ==> r.phase[other] == s.phase[other]
  {
    assert forall other :: other != id ==> (other in r.phase <==> other in r.phase - {id});
    assert forall other :: other != id ==> (other in s.phase <==> other in s.phase - {id});
  }

  lemma FinishInv(s: State, id: string)
    requires Inv(s) && Enabled(s, Finish(id))
    ensures Inv(Apply(s, Finish(id)))
  {
    var mid := s.(q := Drop(s.q, id), phase := s.phase - {id});
    hide BuildQueue.Inv, Window, Leases, Numbered, Owned, Accounted, Grows;
    PhaseIsActive(s, id);
    FinishedIsGone(s.q, id);
    FollowDropped(s, id, Complete(s.q, id));
    FinishMid(s, id);
    CompleteInv(s.q, id);
    CompleteGrows(s.q, id);
    FollowKeeps(mid, Complete(s.q, id));
  }

  lemma FinishMid(s: State, id: string)
    requires Window(s) && Leases(s) && Numbered(s) && Owned(s) && Accounted(s) && InPhase(s, id, KeyReleased)
    ensures var mid := s.(q := Drop(s.q, id), phase := s.phase - {id});
      Window(mid) && Leases(mid) && Numbered(mid) && Owned(mid) && Accounted(mid)
  {
    var mid := s.(q := Drop(s.q, id), phase := s.phase - {id});
    hide Window, Leases, Numbered, Owned, Accounted, Quiets;
    DropWindow(s, id);
    QuietLeases(s, mid, id);
    LeaveQuiets(s, mid, id);
    QuietsKeep(s, mid);
  }

  lemma PhaseIsActive(s: State, id: string)
    requires Window(s) && id in s.phase
    ensures id in s.q.active
  {
  }

  lemma FollowDropped(s: State, id: string, q: Queue)
    requires id !in q.active
    ensures Follow(s.(q := Drop(s.q, id), phase := s.phase - {id}), q) == Follow(s, q)
  {
    var mid := s.(q := Drop(s.q, id), phase := s.phase - {id});
    assert Follow(mid, q).phase == Follow(s, q).phase;
  }

  lemma DropWindow(s: State, id: string)
    requires Window(s) && InPhase(s, id, KeyReleased)
    ensures Window(s.(q := Drop(s.q, id), phase := s.phase - {id}))
  {
  }

  /* Moves that only concern one build's phase, its lease and its VM. */

  lemma MoveWindow(s: State, r: State, id: string, p: Phase)
    requires Window(s) && id in s.phase && !s.phase[id].KeyReleased? && !p.KeyReleased?
    requires r.q == s.q && r.phase == s.phase[id := p]
    ensures Window(r)
  {
  }

  lemma LeasesKept(s: State, r: State, id: string, p: Phase)
    requires Leases(s) && id in s.phase && Leasing(p) == Leasing(s.phase[id])
    requires r.q == s.q && r.phase == s.phase[id := p]
    requires r.acquired == s.acquired && r.leaked == s.leaked && r.builders == s.builders
    ensures Leases(r)
  {
    assert forall other :: Key(r, other) == Key(s, other);
  }

  /** A keyless build has no lease to keep. */
  lemma KeylessLeases(s: State, r: State, id: string, p: Phase)
    requires Leases(s) && id in s.phase && Key(s, id) == ""
    requires r.q == s.q && r.phase == s.phase[id := p]
    requires r.acquired == s.acquired && r.leaked == s.leaked && r.builders == s.builders
    ensures Leases(r)
  {
    assert forall other :: Key(r, other) == Key(s, other);
  }

  lemma LeaseTaken(s: State, r: State, id: string)
    requires Leases(s) && InPhase(s, id, Queued) && Key(s, id) != "" && Available(s, Key(s, id))
    requires r.q == s.q && r.phase == s.phase[id := Holding] && r.acquired == s.acquired[Key(s, id) := id]
    requires r.leaked == s.leaked && r.builders == s.builders
    ensures Leases(r)
  {
    assert forall other :: Key(r, other) == Key(s, other);
  }

  lemma LeaseGivenBack(s: State, r: State, id: string)
    requires Leases(s) && InPhase(s, id, VMDone) && Key(s, id) != ""
    requires r.q == s.q && r.phase == s.phase[id := Returned] && r.acquired == s.acquired - {Key(s, id)}
    requires r.leaked == s.leaked && r.builders == s.builders
    ensures Leases(r)
  {
    assert forall other :: Key(r, other) == Key(s, other);
  }

  lemma LeaseLost(s: State, r: State, id: string)
    requires Leases(s) && InPhase(s, id, VMDone) && Key(s, id) != ""
    requires r.q == s.q && r.phase == s.phase[id := Returned] && r.leaked == s.leaked + {Key(s, id)}
    requires r.acquired == s.acquired && r.builders == s.builders
    ensures Leases(r)
  {
    assert forall other :: Key(r, other) == Key(s, other);
  }

  /** A build's own step other than a boot. */
  lemma MoveQuiets(s: State, r: State, id: string, p: Phase)
    requires Owned(s) && Numbered(s) && id in s.phase && !p.Booted? && s.nextInst <= r.nextInst
    requires r.q == s.q && r.phase == s.phase[id := p] && r.reaper == s.reaper
    requires forall i :: i in r.live ==> i in s.live && r.live[i] == s.live[i]
    requires s.phase[id].Booted? ==> s.phase[id].inst !in r.live || s.phase[id].inst in r.strays
    requires r.strays == s.strays || (s.phase[id].Booted? && r.strays == s.strays + {s.phase[id].inst})
    requires forall b, i :: b in r.attached && i in r.attached[b] ==>
      (b in s.attached && i in s.attached[b]) || s.nextInst <= i < r.nextInst
    ensures Quiets(s, r)
  {
    assert forall other :: Key(r, other) == Key(s, other);
    assert s.phase[id].Booted? ==> BootedOn(s, id, s.phase[id].inst);
    forall other, i: nat | BootedOn(r, other, i)
      ensures other != id && BootedOn(s, other, i) && i !in r.strays
    {
      assert BootedOn(s, other, i);
    }
    forall other, i: nat | BootedOn(s, other, i) && i in r.live
      ensures BootedOn(r, other, i) || i in r.strays
    {
      if other != id {
        assert BootedOn(r, other, i);
      }
    }
  }

  lemma AcquireInv(s: State, e: Event)
    requires Inv(s) && Enabled(s, e) && (e.Acquire? || e.AcquireFails? || e.GiveUp?)
    ensures Inv(Apply(s, e))
  {
    hide BuildQueue.Inv, Window, Leases, Numbered, Owned, Accounted, Quiets;
    var r, p := Apply(s, e), if e.Acquire? then Holding else Returned;
    MoveWindow(s, r, e.id, p);
    if e.Acquire? {
      LeaseTaken(s, r, e.id);
    } else {
      LeasesKept(s, r, e.id, p);
    }
    MoveQuiets(s, r, e.id, p);
    QuietsKeep(s, r);
  }

  lemma BootFailsInv(s: State, e: Event)
    requires Inv(s) && Enabled(s, e) && e.BootFails?
    ensures Inv(Apply(s, e))
  {
    hide BuildQueue.Inv, Window, Leases, Numbered, Owned, Accounted, Quiets;
    var r := Apply(s, e);
    MoveWindow(s, r, e.id, VMDone);
    if Key(s, e.id) == "" {
      KeylessLeases(s, r, e.id, VMDone);
    } else {
      LeasesKept(s, r, e.id, VMDone);
    }
    MoveQuiets(s, r, e.id, VMDone);
    QuietsKeep(s, r);
  }

  lemma BootMachines(s: State, r: State, id: string)
    requires Numbered(s) && Owned(s) && Accounted(s) && id in s.phase && !s.phase[id].Booted?
    requires r.q == s.q && r.phase == s.phase[id := Booted(s.nextInst)] && r.nextInst == s.nextInst + 1
    requires r.live == s.live[s.nextInst := Key(s, id)] && r.attached == Recorded(s, Key(s, id), s.nextInst)
    requires r.strays == s.strays && r.reaper == s.reaper
    ensures Numbered(r) && Owned(r) && Accounted(r)
  {
    assert forall other :: Key(r, other) == Key(s, other);
    forall other, i: nat
      ensures BootedOn(r, other, i) <==> (if other == id then i == s.nextInst else BootedOn(s, other, i))
    {
    }
    forall i | i in r.live && i !in r.strays
      ensures exists other :: BootedOn(r, other, i)
    {
      if i == s.nextInst {
        assert BootedOn(r, id, i);
      } else {
        var other :| BootedOn(s, other, i);
        assert BootedOn(r, other, i);
      }
    }
  }

  lemma BootInv(s: State, e: Event)
    requires Inv(s) && Enabled(s, e) && e.Boot?
    ensures Inv(Apply(s, e))
  {
    hide BuildQueue.Inv, Window, Leases, Numbered, Owned, Accounted;
    var r, p := Apply(s, e), Booted(s.nextInst);
    MoveWindow(s, r, e.id, p);
    if Key(s, e.id) == "" {
      KeylessLeases(s, r, e.id, p);
    } else {
      LeasesKept(s, r, e.id, p);
    }
    BootMachines(s, r, e.id);
  }

  lemma DeleteVMInv(s: State, e: Event)
    requires Inv(s) && Enabled(s, e) && (e.DeleteVM? || e.DeleteVMFails?)
    ensures Inv(Apply(s, e))
  {
    hide BuildQueue.Inv, Window, Leases, Numbered, Owned, Accounted, Quiets;
    var r := Apply(s, e);
    MoveWindow(s, r, e.id, VMDone);
    LeasesKept(s, r, e.id, VMDone);
    MoveQuiets(s, r, e.id, VMDone);
    QuietsKeep(s, r);
  }

  lemma ReleaseLeaseInv(s: State, e: Event)
    requires Inv(s) && Enabled(s, e) && (e.ReleaseLease? || e.LeaseLeaks?)
    ensures Inv(Apply(s, e))
  {
    hide BuildQueue.Inv, Window, Leases, Numbered, Owned, Accounted, Quiets;
    var r := Apply(s, e);
    MoveWindow(s, r, e.id, Returned);
    MoveQuiets(s, r, e.id, Returned);
    QuietsKeep(s, r);
    if Key(s, e.id) == "" {
      KeylessLeases(s, r, e.id, Returned);
    } else if e.LeaseLeaks? {
      LeaseLost(s, r, e.id);
    } else {
      LeaseGivenBack(s, r, e.id);
    }
  }

  /** The event is the reaper's, a builder's own, or a VM's. */
  predicate BuilderEvent(e: Event) {
    || e.Vanish? || e.ReapMark? || e.ReapFetch? || e.ReapVisit? || e.ReapRefetch? || e.ReapDetach? || e.ReapStop?
    || e.StartDelete? || e.FinishDelete? || e.StartReset? || e.FinishReset? || e.CreateBuilder?
  }

  lemma BuildersLeases(s: State, r: State)
    requires Leases(s) && r.q == s.q && r.phase == s.phase && r.acquired == s.acquired && r.leaked == s.leaked
    requires forall b :: b in s.acquired && b in s.builders ==> b in r.builders && r.builders[b] == s.builders[b]
    ensures Leases(r)
  {
    assert forall other :: Key(r, other) == Key(s, other);
  }

  lemma SameBuildsQuiet(s: State, r: State)
    requires Owned(s) && r.q == s.q && r.phase == s.phase && r.strays == s.strays && r.nextInst == s.nextInst
    requires forall i :: i in r.live ==> i in s.live && r.live[i] == s.live[i]
    requires forall b, i :: b in r.attached && i in r.attached[b] ==> b in s.attached && i in s.attached[b]
    requires forall i :: i in Todo(r.reaper) ==>
      || (i in Todo(s.reaper) && r.reaper.builder == s.reaper.builder)
      || (r.reaper.builder in s.attached && i in s.attached[r.reaper.builder])
    ensures Quiets(s, r)
  {
    assert forall other :: Key(r, other) == Key(s, other);
    assert forall id, i: nat :: BootedOn(r, id, i) <==> BootedOn(s, id, i);
  }

  lemma BuildersQuiets(s: State, e: Event)
    requires Owned(s) && Enabled(s, e) && BuilderEvent(e)
    ensures Quiets(s, Apply(s, e))
  {
    hide Idle, Owned, Quiets;
    SameBuildsQuiet(s, Apply(s, e));
  }

  lemma AcquiredIsReady(s: State, b: string)
    requires Leases(s) && b in s.acquired
    ensures b in s.builders && s.builders[b].Ready?
  {
  }

  lemma BuildersStand(s: State, e: Event)
    requires Leases(s) && Enabled(s, e) && BuilderEvent(e)
    ensures forall b :: b in s.acquired && b in s.builders ==>
      b in Apply(s, e).builders && Apply(s, e).builders[b] == s.builders[b]
  {
    hide HasBuilds, Leases;
    if (e.ReapMark? || e.StartDelete? || e.FinishDelete? || e.StartReset? || e.FinishReset? || e.CreateBuilder?)
       && e.builder in s.acquired {
      AcquiredIsReady(s, e.builder);
    }
  }

  /** Events of the reaper and of the builder's own lifecycle touch no build. */
  lemma BuilderEventInv(s: State, e: Event)
    requires Inv(s) && Enabled(s, e) && BuilderEvent(e)
    ensures Inv(Apply(s, e))
  {
    hide BuildQueue.Inv, HasBuilds, Window, Leases, Numbered, Owned, Accounted, Quiets;
    var r := Apply(s, e);
    BuildersStand(s, e);
    BuildersLeases(s, r);
    BuildersQuiets(s, e);
    QuietsKeep(s, r);
    assert Window(r) by { SameWindow(s, r); }
  }

  lemma SameWindow(s: State, r: State)
    requires Window(s) && r.q == s.q && r.phase == s.phase
    ensures Window(r)
  {
  }

  /** Every enabled event keeps the window, the leases and the machines in order. */
  lemma ApplyInv(s: State, e: Event)
    requires Inv(s) && Enabled(s, e)
    ensures Inv(Apply(s, e))
  {
    hide Inv, Enabled, Apply;
    match e
    case Submit(id, key) => SubmitInv(s, id, key);
    case Withdrawn(id) => WithdrawnInv(s, id);
    case GiveUp(_) => AcquireInv(s, e);
    case Acquire(_) => AcquireInv(s, e);
    case AcquireFails(_, _, _) => AcquireInv(s, e);
    case Boot(_) => BootInv(s, e);
    case BootFails(_, _) => BootFailsInv(s, e);
    case DeleteVM(_, _) => DeleteVMInv(s, e);
    case DeleteVMFails(_) => DeleteVMInv(s, e);
    case ReleaseLease(_) => ReleaseLeaseInv(s, e);
    case LeaseLeaks(_) => ReleaseLeaseInv(s, e);
    case ReleaseKey(id) => ReleaseKeyInv(s, id);
    case Finish(id) => FinishInv(s, id);
    case _ => BuilderEventInv(s, e);
  }

  /* ---- whole runs ---- */

  /** Each event is enabled in turn. */
  ghost predicate IsRun(path: seq<State>, es: seq<Event>) {
    && |path| == |es| + 1
    && forall k :: 0 <= k < |es| ==> Enabled(path[k], es[k]) && path[k + 1] == Apply(path[k], es[k])
  }

  function Initial(maxConcurrent: int, builders: map<string, BuilderStatus>): State {
    State(New(maxConcurrent), map[], map[], {}, builders, map[], map[], {}, Resting, 0)
  }

  /** A run from a fresh start with whatever builders there are. */
  ghost predicate Starts(path: seq<State>, es: seq<Event>) {
    IsRun(path, es) && exists n, builders :: path[0] == Initial(n, builders)
  }

  lemma InitialInv(maxConcurrent: int, builders: map<string, BuilderStatus>)
    ensures Inv(Initial(maxConcurrent, builders))
  {
    NewInv(maxConcurrent);
  }

  /** The window, the leases and the machines are in order in every state of every run. */
  lemma {:induction false} RunInv(path: seq<State>, es: seq<Event>, k: nat)
    requires Starts(path, es) && k <= |es|
    ensures Inv(path[k])
    decreases k
  {
    hide Inv, Enabled, Apply;
    if k == 0 {
      var n, builders :| path[0] == Initial(n, builders);
      InitialInv(n, builders);
    } else {
      RunInv(path, es, k - 1);
      ApplyInv(path[k - 1], es[k - 1]);
    }
  }

  /** Some run leads from `s` to `r`. */
  ghost predicate Leads(s: State, r: State) {
    exists path, es :: IsRun(path, es) && path[0] == s && path[|es|] == r
  }

  lemma LeadsNowhere(s: State)
    ensures Leads(s, s)
  {
    assert IsRun([s], []);
  }

  lemma LeadsOneMore(s: State, r: State, e: Event)
    requires Leads(s, r) && Enabled(r, e)
    ensures Leads(s, Apply(r, e))
  {
    hide Enabled, Apply;
    var path, es :| IsRun(path, es) && path[0] == s && path[|es|] == r;
    var longer, more := path + [Apply(r, e)], es + [e];
    forall k | 0 <= k < |more|
      ensures Enabled(longer[k], more[k]) && longer[k + 1] == Apply(longer[k], more[k])
    {
    }
    assert IsRun(longer, more);
  }
}
