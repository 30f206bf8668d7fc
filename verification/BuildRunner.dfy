/** runBuild and executeBuild of lib/builds/manager.go in the source's order, deferred calls
    included: every step they take is one that the machine of module BuildExecution allows,
    so its invariants hold throughout. Other builds, the reaper and the API run between any
    two steps, and any call may fail. */
module BuildRunner {
  import BuildQueue
  import opened BuildExecution

  /** The event is a step of build `id` itself. */
  predicate By(e: Event, id: string) {
    match e
    case GiveUp(b) => b == id
    case Acquire(b) => b == id
    case AcquireFails(b, _, _) => b == id
    case Boot(b) => b == id
    case BootFails(b, _) => b == id
    case DeleteVM(b, _) => b == id
    case DeleteVMFails(b) => b == id
    case ReleaseLease(b) => b == id
    case LeaseLeaks(b) => b == id
    case ReleaseKey(b) => b == id
    case Finish(b) => b == id
    case _ => false
  }

  /** The build is in phase `p` under `key`. */
  ghost predicate Stands(s: State, id: string, key: string, p: Phase) {
    InPhase(s, id, p) && id in s.q.active && Key(s, id) == key
  }

  /** No VM that has ended runs again, and strays stay on record. */
  ghost predicate Later(s: State, r: State) {
    s.nextInst <= r.nextInst && s.strays <= r.strays && forall i :: i in r.live && i < s.nextInst ==> i in s.live
  }

  lemma ApplyLater(s: State, e: Event)
    requires Enabled(s, e)
    ensures Later(s, Apply(s, e))
  {
    hide HasBuilds, BuildQueue.Enqueue, BuildQueue.Cancel, BuildQueue.Release, BuildQueue.Complete;
  }

  lemma FollowStands(s: State, q: BuildQueue.Queue, id: string, key: string, p: Phase)
    requires Stands(s, id, key, p) && id in q.active && q.active[id] == s.q.active[id]
    ensures Stands(Follow(s, q), id, key, p)
  {}

  lemma ReleasedKeepsOthers(q: BuildQueue.Queue, other: string, id: string)
    requires BuildQueue.Inv(q) && id in q.active
    ensures id in BuildQueue.Release(q, other).active && BuildQueue.Release(q, other).active[id] == q.active[id]
  {
    ReleaseGrows(q, other);
  }

  lemma CompletedKeepsOthers(q: BuildQueue.Queue, other: string, id: string)
    requires BuildQueue.Inv(q) && other != id && id in q.active
    ensures id in BuildQueue.Complete(q, other).active && BuildQueue.Complete(q, other).active[id] == q.active[id]
  {
    CompleteGrows(q, other);
  }

  lemma EnqueueKeeps(q: BuildQueue.Queue, b: string, k: string, id: string)
    requires id in q.active
    ensures id in BuildQueue.Enqueue(q, b, k).active && BuildQueue.Enqueue(q, b, k).active[id] == q.active[id]
  {
    EnqueueGrows(q, b, k);
  }

  lemma CancelKeeps(q: BuildQueue.Queue, b: string, id: string)
    requires id in q.active
    ensures id in BuildQueue.Cancel(q, b).active && BuildQueue.Cancel(q, b).active[id] == q.active[id]
  {
    CancelGrows(q, b);
  }

  predicate Queueing(e: Event) { e.Submit? || e.Withdrawn? || e.ReleaseKey? || e.Finish? }

  lemma QueueingLeaves(s: State, e: Event, id: string, key: string, p: Phase)
    requires BuildQueue.Inv(s.q) && Enabled(s, e) && Queueing(e) && !By(e, id) && Stands(s, id, key, p)
    ensures Stands(Apply(s, e), id, key, p)
  {
    hide BuildQueue.Inv, BuildQueue.Enqueue, BuildQueue.Cancel, BuildQueue.Release, BuildQueue.Complete;
    match e
    case Submit(b, k) =>
      EnqueueKeeps(s.q, b, k, id);
      FollowStands(s, BuildQueue.Enqueue(s.q, b, k), id, key, p);
    case Withdrawn(b) =>
      CancelKeeps(s.q, b, id);
      FollowStands(s, BuildQueue.Cancel(s.q, b), id, key, p);
    case ReleaseKey(b) =>
      ReleasedKeepsOthers(s.q, b, id);
      FollowStands(Move(s, b, KeyReleased), BuildQueue.Release(s.q, b), id, key, p);
    case Finish(b) =>
      CompletedKeepsOthers(s.q, b, id);
      FollowStands(s, BuildQueue.Complete(s.q, b), id, key, p);
  }

  lemma RestLeaves(s: State, e: Event, id: string, key: string, p: Phase)
    requires Enabled(s, e) && !Queueing(e) && !By(e, id) && Stands(s, id, key, p)
    ensures Stands(Apply(s, e), id, key, p)
  {
    hide HasBuilds;
  }

  /** What other builds, the reaper and the API do leaves a running build where it is. */
  lemma OthersLeave(s: State, e: Event, id: string, key: string, p: Phase)
    requires Inv(s) && Enabled(s, e) && !By(e, id) && Stands(s, id, key, p)
    ensures Stands(Apply(s, e), id, key, p)
  {
    hide Inv, Enabled, Apply, Stands, BuildQueue.Inv;
    QueueInOrder(s);
    if Queueing(e) {
      QueueingLeaves(s, e, id, key, p);
    } else {
      RestLeaves(s, e, id, key, p);
    }
  }

  /** releaseBuildMaxAttempts. */
  const MAX_ATTEMPTS := 5

  datatype VM = NoVM | VM(inst: nat)

  /** How the build left its VM: gone, or running and on record as a stray. */
  ghost predicate Left(s: State, vm: VM, deleted: bool) {
    vm.VM? ==> vm.inst < s.nextInst && (if deleted then vm.inst !in s.live else vm.inst in s.strays)
  }

  lemma LeftLater(s: State, r: State, vm: VM, deleted: bool)
    requires Left(s, vm, deleted) && Later(s, r)
    ensures Left(r, vm, deleted)
  {}

  class Runner {
    var state: State

    method Step(e: Event, ghost start: State)
      requires Inv(state) && Leads(start, state) && Enabled(state, e)
      modifies this
      ensures state == Apply(old(state), e) && Inv(state) && Leads(start, state) && Later(old(state), state)
    {
      hide Inv, Apply, Enabled, Leads, Later;
      LeadsOneMore(start, state, e);
      ApplyInv(state, e);
      ApplyLater(state, e);
      state := Apply(state, e);
    }

    /** Any number of steps of others. */
    method Others(id: string, ghost key: string, ghost p: Phase, ghost start: State)
      requires Inv(state) && Leads(start, state) && Stands(state, id, key, p)
      modifies this
      ensures Inv(state) && Leads(start, state) && Stands(state, id, key, p) && Later(old(state), state)
    {
      hide Inv, Apply, Enabled, Leads, Stands;
      var n: int := *;
      var i := 0;
      while i < n
        invariant Inv(state) && Leads(start, state) && Stands(state, id, key, p) && Later(old(state), state)
      {
        i := i + 1;
        var e: Event := *;
        if Enabled(state, e) && !By(e, id) {
          OthersLeave(state, e, id, key, p);
          Step(e, start);
        }
      }
    }

    /** AcquireForBuild: succeeds only on a ready builder nobody holds. It may also fail, having
        cleared none, some or all of what was left on the disk. */
    method Acquire(id: string, key: string, ghost start: State) returns (ok: bool)
      requires Inv(state) && Leads(start, state) && Stands(state, id, key, Queued) && key != ""
      modifies this
      ensures Inv(state) && Leads(start, state)
      ensures Stands(state, id, key, if ok then Holding else Returned)
      ensures ok ==> Available(old(state), key) && state.acquired == old(state.acquired)[key := id]
      ensures !ok ==> state.acquired == old(state.acquired)
    {
      hide Inv, Leads, HasBuilds;
      ok := *;
      var killed: set<nat>, dropped: set<nat> := *, *;
      if ok && Enabled(state, Event.Acquire(id)) {
        Step(Event.Acquire(id), start);
      } else if Enabled(state, AcquireFails(id, killed, dropped)) {
        ok := false;
        Step(AcquireFails(id, killed, dropped), start);
      } else {
        ok := false;
        Step(AcquireFails(id, {}, {}), start);
      }
    }

    /** CreateInstance with the builder's disk attached, when there is a builder. */
    method CreateInstance(id: string, key: string, ghost start: State) returns (vm: VM)
      requires Inv(state) && Leads(start, state)
      requires Stands(state, id, key, if key != "" then Holding else Queued)
      modifies this
      ensures Inv(state) && Leads(start, state)
      ensures Stands(state, id, key, if vm.VM? then Booted(vm.inst) else VMDone)
    {
      hide Inv, Leads, HasBuilds;
      var fails: bool, recorded: bool := *, *;
      if fails || !Enabled(state, Boot(id)) {
        vm := NoVM;
        Step(BootFails(id, recorded), start);
      } else {
        vm := VM(state.nextInst);
        Step(Boot(id), start);
      }
    }

    /** The deferred DeleteInstance, whose error is dropped. */
    method DeleteInstance(id: string, key: string, inst: nat, ghost start: State) returns (deleted: bool)
      requires Inv(state) && Leads(start, state) && Stands(state, id, key, Booted(inst))
      modifies this
      ensures Inv(state) && Leads(start, state) && Stands(state, id, key, VMDone)
      ensures Left(state, VM(inst), deleted)
    {
      hide Inv, Leads, HasBuilds;
      InUse(state, id, inst);
      deleted := *;
      var detached: bool := *;
      if deleted {
        Step(DeleteVM(id, detached), start);
      } else {
        Step(DeleteVMFails(id), start);
      }
    }

    /** The deferred release, with its retries; after the last failure the hold leaks. */
    method ReleaseBuilder(id: string, key: string, ghost start: State) returns (attempts: nat)
      requires Inv(state) && Leads(start, state) && Stands(state, id, key, VMDone)
      modifies this
      ensures Inv(state) && Leads(start, state) && Stands(state, id, key, Returned) && Later(old(state), state)
      ensures attempts <= MAX_ATTEMPTS
      ensures key != "" && key in state.acquired && state.acquired[key] == id ==> key in state.leaked && attempts == MAX_ATTEMPTS
    {
      hide Inv, Leads, HasBuilds;
      attempts := 0;
      if key == "" {
        Step(ReleaseLease(id), start);
        return;
      }
      while attempts < MAX_ATTEMPTS
        invariant attempts <= MAX_ATTEMPTS
        invariant Inv(state) && Leads(start, state) && Stands(state, id, key, VMDone) && Later(old(state), state)
      {
        attempts := attempts + 1;
        var ok: bool := *;
        if ok {
          Step(ReleaseLease(id), start);
          return;
        }
        Others(id, key, VMDone, start);
      }
      Step(LeaseLeaks(id), start);
    }

    /** executeBuild: on every path the VM has been deleted, or is on record as a stray, before the
        builder is released. */
    method ExecuteBuild(id: string, key: string, ghost start: State) returns (ok: bool, vm: VM, deleted: bool)
      requires Inv(state) && Leads(start, state) && Stands(state, id, key, Queued)
      modifies this
      ensures Inv(state) && Leads(start, state) && Stands(state, id, key, Returned) && Left(state, vm, deleted)
      ensures key != "" && key in state.acquired && state.acquired[key] == id ==> key in state.leaked
    {
      hide Inv, Leads, Apply, Enabled, Stands, Later, Left;
      ok, vm, deleted := *, NoVM, true;
      assert Left(state, NoVM, true) by { NothingLeft(state); }
      var prepared: bool := *;
      if !prepared {
        GiveUpBuild(id, key, start);
        NothingLeft(state);
        return false, NoVM, true;
      }
      if key != "" {
        var acquired := Acquire(id, key, start);
        if !acquired {
          NoLease(state, id, key);
          NothingLeft(state);
          return false, NoVM, true;
        }
        Others(id, key, Holding, start);
      }
      vm := CreateInstance(id, key, start);
      if vm.VM? {
        Others(id, key, Booted(vm.inst), start);
        deleted := DeleteInstance(id, key, vm.inst, start);
        assert vm == VM(vm.inst);
      } else {
        ok := false;
        NothingLeft(state);
      }
      ghost var s1 := state;
      Others(id, key, VMDone, start);
      ghost var s2 := state;
      LeftLater(s1, s2, vm, deleted);
      var attempts := ReleaseBuilder(id, key, start);
      LeftLater(s2, state, vm, deleted);
    }

    method GiveUpBuild(id: string, key: string, ghost start: State)
      requires Inv(state) && Leads(start, state) && Stands(state, id, key, Queued)
      modifies this
      ensures Inv(state) && Leads(start, state) && Stands(state, id, key, Returned)
      ensures key != "" && key in state.acquired && state.acquired[key] == id ==> key in state.leaked
    {
      hide Inv, Leads, HasBuilds;
      Step(GiveUp(id), start);
      NoLease(state, id, key);
    }

    /** runBuild and the queue's wrapper around it: a build that was started runs to its end,
        gives its builder back unless every attempt failed, then its key, then its slot; its VM
        is gone unless deleting it failed. */
    method RunBuild(id: string, key: string) returns (ok: bool, vm: VM, deleted: bool)
      requires Inv(state) && Stands(state, id, key, Queued)
      modifies this
      ensures Inv(state) && Leads(old(state), state)
      ensures id !in state.phase && id !in state.q.active && Left(state, vm, deleted)
      ensures key != "" && key in state.acquired && state.acquired[key] == id ==> key in state.leaked
    {
      hide Inv, Leads, Apply, Enabled, Stands, Later, Left;
      ghost var start := state;
      LeadsNowhere(state);
      ok, vm, deleted := ExecuteBuild(id, key, start);
      ghost var s1 := state;
      Others(id, key, Returned, start);
      ghost var s2 := state;
      LeftLater(s1, s2, vm, deleted);
      ReleaseSerialKey(id, key, start);
      ghost var s3 := state;
      LeftLater(s2, s3, vm, deleted);
      Others(id, key, KeyReleased, start);
      ghost var s4 := state;
      LeftLater(s3, s4, vm, deleted);
      MarkComplete(id, key, start);
      LeftLater(s4, state, vm, deleted);
    }

    method ReleaseSerialKey(id: string, key: string, ghost start: State)
      requires Inv(state) && Leads(start, state) && Stands(state, id, key, Returned)
      modifies this
      ensures Inv(state) && Leads(start, state) && Stands(state, id, key, KeyReleased) && Later(old(state), state)
    {
      hide Inv, Leads, Apply, Enabled, Stands, Later;
      KeyReleases(state, id, key);
      Step(ReleaseKey(id), start);
    }

    method MarkComplete(id: string, key: string, ghost start: State)
      requires Inv(state) && Leads(start, state) && Stands(state, id, key, KeyReleased)
      modifies this
      ensures Inv(state) && Leads(start, state) && id !in state.phase && id !in state.q.active && Later(old(state), state)
      ensures key != "" && key in state.acquired && state.acquired[key] == id ==> key in state.leaked
    {
      hide Inv, Leads, Apply, Enabled, Stands, Later;
      BuildFinishes(state, id, key);
      Step(Finish(id), start);
      NoLeaseOnceGone(state, id, key);
    }
  }

  lemma NothingLeft(s: State)
    ensures Left(s, NoVM, true)
  {}

  lemma InUse(s: State, id: string, inst: nat)
    requires Inv(s) && BootedOn(s, id, inst)
    ensures inst < s.nextInst
  {
    hide BuildQueue.Inv, Window, Leases, Owned, Accounted;
  }

  lemma QueueInOrder(s: State)
    requires Inv(s)
    ensures BuildQueue.Inv(s.q)
  {}

  lemma KeyReleases(s: State, id: string, key: string)
    requires Inv(s) && Stands(s, id, key, Returned)
    ensures Enabled(s, ReleaseKey(id)) && Stands(Apply(s, ReleaseKey(id)), id, key, KeyReleased)
  {
    hide Inv, BuildQueue.Inv, BuildQueue.Release, HasBuilds;
    QueueInOrder(s);
    ReleasedKeepsOthers(s.q, id, id);
    FollowStands(Move(s, id, KeyReleased), BuildQueue.Release(s.q, id), id, key, KeyReleased);
  }

  lemma BuildFinishes(s: State, id: string, key: string)
    requires Inv(s) && Stands(s, id, key, KeyReleased)
    ensures Enabled(s, Finish(id))
    ensures id !in Apply(s, Finish(id)).phase && id !in Apply(s, Finish(id)).q.active
  {
    hide Inv, BuildQueue.Inv, BuildQueue.Complete, HasBuilds;
    QueueInOrder(s);
    FinishedIsGone(s.q, id);
  }

  /** A build that is not in a leasing phase holds its builder only through a leak. */
  lemma NoLease(s: State, id: string, key: string)
    requires Inv(s) && Stands(s, id, key, Returned)
    ensures key != "" && key in s.acquired && s.acquired[key] == id ==> key in s.leaked
  {
    hide BuildQueue.Inv, Window, Numbered, Owned, Accounted;
  }

  lemma NoLeaseOnceGone(s: State, id: string, key: string)
    requires Inv(s) && id !in s.phase
    ensures key != "" && key in s.acquired && s.acquired[key] == id ==> key in s.leaked
  {
    hide BuildQueue.Inv, Window, Numbered, Owned, Accounted;
  }
}
