/** Two runs in which a builder is deleted and made again while the reaper is still at its
    predecessor: a running build loses its VM, and two VMs end up on one builder disk. */
module BuildReaperRuns {
  import BuildQueue
  import opened BuildExecution
  import opened BuildNesting

  ghost predicate Free(q: BuildQueue.Queue) {
    q.limit >= 1 && q.active == map[] && q.keys == map[] && q.pending == [] && q.released == {}
  }

  ghost predicate Running(q: BuildQueue.Queue, id: string, b: string) {
    && q.limit >= 1 && q.active.Keys == {id} && q.active[id].key == b && q.active[id].id == id
    && q.keys == map[id := b] && q.pending == [] && q.released == {}
  }

  lemma EnqueueRuns(q: BuildQueue.Queue, id: string, b: string)
    requires Free(q) && b != ""
    ensures Running(BuildQueue.Enqueue(q, id, b), id, b)
  {}

  lemma ReleaseRuns(q: BuildQueue.Queue, id: string, b: string)
    requires Running(q, id, b)
    ensures BuildQueue.Release(q, id) == BuildQueue.LetGo(q, id)
    ensures Free(BuildQueue.Complete(BuildQueue.LetGo(q, id), id))
  {}

  /** Nothing is running and one builder is ready with an unattached disk. */
  ghost predicate Quiet(s: State, b: string) {
    && b != "" && Free(s.q) && s.phase == map[] && s.acquired == map[] && s.leaked == {}
    && s.builders == map[b := Ready] && Attached(s, b) == {}
  }

  /** The state once build `id` has booted VM `i` on `b`. */
  ghost predicate Building(s: State, b: string, id: string, i: nat) {
    && b != "" && Running(s.q, id, b) && s.phase == map[id := Booted(i)] && s.acquired == map[b := id] && s.leaked == {}
    && s.builders == map[b := Ready] && Attached(s, b) == {i} && s.nextInst == i + 1
  }

  lemma BuildStarts(s: State, b: string, id: string)
    requires Quiet(s, b)
    ensures var r := Apply(s, Submit(id, b));
      Running(r.q, id, b) && r == s.(q := r.q, phase := map[id := Queued])
  {
    EnqueueRuns(s.q, id, b);
    hide BuildQueue.Enqueue;
    assert Apply(s, Submit(id, b)).phase == map[id := Queued];
  }

  lemma BuildBoots(start: State, s: State, b: string, id: string) returns (r: State)
    requires Leads(start, s) && Quiet(s, b)
    ensures Leads(start, r) && Building(r, b, id, s.nextInst)
    ensures r.live == s.live[s.nextInst := b] && r.strays == s.strays && r.reaper == s.reaper
  {
    hide Leads, BuildQueue.Enqueue, HasBuilds;
    BuildStarts(s, b, id);
    LeadsOneMore(start, s, Submit(id, b));
    r := BuildGoesOn(start, Apply(s, Submit(id, b)), b, id);
  }

  lemma BuildGoesOn(start: State, s: State, b: string, id: string) returns (r: State)
    requires Leads(start, s) && b != "" && Running(s.q, id, b) && s.phase == map[id := Queued]
    requires s.acquired == map[] && s.leaked == {} && s.builders == map[b := Ready] && Attached(s, b) == {}
    ensures Leads(start, r) && Building(r, b, id, s.nextInst)
    ensures r.live == s.live[s.nextInst := b] && r.strays == s.strays && r.reaper == s.reaper
  {
    hide Leads, HasBuilds;
    var s1 := Apply(s, Acquire(id));
    LeadsOneMore(start, s, Acquire(id));
    assert s1.live == s.live;
    r := Apply(s1, Boot(id));
    LeadsOneMore(start, s1, Boot(id));
  }

  /** The build's VM cannot be deleted; everything else is given back. */
  lemma BuildStrays(start: State, s: State, b: string, id: string, i: nat) returns (r: State)
    requires Leads(start, s) && b != "" && Running(s.q, id, b) && s.phase == map[id := Booted(i)] && s.acquired == map[b := id]
    ensures Leads(start, r) && Free(r.q)
    ensures r == s.(q := r.q, phase := map[], acquired := map[], strays := s.strays + {i})
  {
    hide Leads, Running, Enabled, Apply;
    var s1 := s.(phase := map[id := VMDone], strays := s.strays + {i});
    VMStays(s, id, i);
    LeadsOneMore(start, s, DeleteVMFails(id));
    LeaseGoes(s1, b, id);
    LeadsOneMore(start, s1, ReleaseLease(id));
    r := BuildEnds(start, s1.(phase := map[id := Returned], acquired := map[]), b, id);
  }

  lemma VMStays(s: State, id: string, i: nat)
    requires s.phase == map[id := Booted(i)]
    ensures Enabled(s, DeleteVMFails(id))
    ensures Apply(s, DeleteVMFails(id)) == s.(phase := map[id := VMDone], strays := s.strays + {i})
  {
    hide HasBuilds;
  }

  lemma LeaseGoes(s: State, b: string, id: string)
    requires b != "" && Running(s.q, id, b) && s.phase == map[id := VMDone] && s.acquired == map[b := id]
    ensures Enabled(s, ReleaseLease(id))
    ensures Apply(s, ReleaseLease(id)) == s.(phase := map[id := Returned], acquired := map[])
  {
    hide HasBuilds;
    assert s.acquired - {b} == map[];
  }

  lemma KeyGoes(s: State, b: string, id: string)
    requires Running(s.q, id, b) && s.phase == map[id := Returned]
    ensures Apply(s, ReleaseKey(id)) == s.(q := BuildQueue.LetGo(s.q, id), phase := map[id := KeyReleased])
  {
    ReleaseRuns(s.q, id, b);
    hide BuildQueue.Release;
    assert Apply(s, ReleaseKey(id)).phase == map[id := KeyReleased];
  }

  lemma SlotGoes(s: State, b: string, id: string, q: BuildQueue.Queue)
    requires Running(q, id, b) && s.q == BuildQueue.LetGo(q, id) && s.phase == map[id := KeyReleased]
    ensures var r := Apply(s, Finish(id));
      Free(r.q) && r == s.(q := r.q, phase := map[])
  {
    ReleaseRuns(q, id, b);
    hide BuildQueue.Complete;
    assert Apply(s, Finish(id)).phase == map[];
  }

  lemma BuildEnds(start: State, s: State, b: string, id: string) returns (r: State)
    requires Leads(start, s) && Running(s.q, id, b) && s.phase == map[id := Returned]
    ensures Leads(start, r) && Free(r.q) && r.phase == map[]
    ensures r == s.(q := r.q, phase := r.phase)
  {
    hide Leads, BuildQueue.Release, BuildQueue.Complete, BuildQueue.LetGo, Running;
    KeyGoes(s, b, id);
    var s1 := Apply(s, ReleaseKey(id));
    LeadsOneMore(start, s, ReleaseKey(id));
    SlotGoes(s1, b, id, s.q);
    r := Apply(s1, Finish(id));
    LeadsOneMore(start, s1, Finish(id));
  }

  lemma Unused(s: State, b: string)
    requires Free(s.q) && b !in s.acquired
    ensures Idle(s, b)
  {}

  /** The reaper marks the builder; meanwhile it is deleted and made again. */
  lemma MarkedAndMadeAgain(start: State, s: State, b: string) returns (r: State)
    requires Leads(start, s) && Quiet(s, b) && s.reaper.Resting?
    ensures Leads(start, r) && Quiet(r, b)
    ensures r == s.(attached := r.attached, reaper := Marked(b))
  {
    Unused(s, b);
    hide Leads, HasBuilds;
    var s1 := Apply(s, ReapMark(b));
    LeadsOneMore(start, s, ReapMark(b));
    r := MadeAgain(start, s1, b);
  }

  lemma MadeAgain(start: State, s: State, b: string) returns (r: State)
    requires Leads(start, s) && s.builders == map[b := Deleting] && Attached(s, b) == {}
    ensures Leads(start, r) && r == s.(builders := map[b := Ready], attached := s.attached - {b})
  {
    hide Leads, HasBuilds;
    var s1 := Apply(s, FinishDelete(b));
    assert s1.builders == map[];
    LeadsOneMore(start, s, FinishDelete(b));
    r := Apply(s1, CreateBuilder(b));
    LeadsOneMore(start, s1, CreateBuilder(b));
  }

  /** A running build loses its VM to the reaper. */
  lemma RecreatedBuilderIsCleared(b: string, id: string) returns (s: State)
    requires b != ""
    ensures Leads(Initial(1, map[b := Ready]), s)
    ensures BootedOn(s, id, 0) && 0 in s.live && s.live[0] == b
    ensures Enabled(s, ReapVisit(0, true, true)) && 0 in Killed(s, ReapVisit(0, true, true))
  {
    hide Leads, HasBuilds;
    var start := Initial(1, map[b := Ready]);
    LeadsNowhere(start);
    var s1 := MarkedAndMadeAgain(start, start, b);
    var s2 := BuildBoots(start, s1, b, id);
    s := Apply(s2, ReapFetch);
    LeadsOneMore(start, s2, ReapFetch);
  }

  /** The reaper finds stray `i` on the builder and deletes it; before it looks again, the builder is
      deleted and made again. */
  lemma ClearedAndMadeAgain(start: State, s: State, b: string, i: nat) returns (r: State)
    requires Leads(start, s) && b != "" && Free(s.q) && s.phase == map[] && s.acquired == map[] && s.leaked == {}
    requires s.builders == map[b := Ready] && Attached(s, b) == {i} && s.reaper.Resting?
    ensures Leads(start, r) && Quiet(r, b)
    ensures r == s.(attached := r.attached, live := s.live - {i}, reaper := Clearing(b, {}, true))
  {
    Unused(s, b);
    hide Leads, HasBuilds;
    var s1 := Apply(s, ReapMark(b));
    LeadsOneMore(start, s, ReapMark(b));
    var s2 := s.(builders := map[b := Deleting], reaper := Clearing(b, {i}, false));
    assert Apply(s1, ReapFetch) == s2;
    LeadsOneMore(start, s1, ReapFetch);
    var s3 := Apply(s2, ReapVisit(i, true, true));
    assert Attached(s3, b) == {} && s3.reaper == Clearing(b, {}, true);
    LeadsOneMore(start, s2, ReapVisit(i, true, true));
    r := MadeAgain(start, s3, b);
  }

  /** The record of the new build's VM goes with the reaper's second look. */
  lemma RecordLost(start: State, s: State, b: string, id: string, i: nat) returns (r: State)
    requires Leads(start, s) && Building(s, b, id, i) && s.reaper == Clearing(b, {}, true)
    ensures Leads(start, r) && r == s.(attached := r.attached, reaper := Detaching(b, {})) && Attached(r, b) == {}
  {
    hide Leads, HasBuilds;
    var s1 := Apply(s, ReapRefetch);
    LeadsOneMore(start, s, ReapRefetch);
    assert s1.reaper == Detaching(b, {i});
    r := Apply(s1, ReapDetach(i));
    assert r.reaper == Detaching(b, {});
    LeadsOneMore(start, s1, ReapDetach(i));
  }

  /** Two VMs run on one builder disk. */
  lemma TwoVMsOnOneDisk(b: string, id: string) returns (s: State)
    requires b != ""
    ensures Leads(Initial(1, map[b := Ready]), s)
    ensures 1 in s.live && 2 in s.live && s.live[1] == s.live[2] == b
  {
    hide Leads, HasBuilds;
    var start := Initial(1, map[b := Ready]);
    LeadsNowhere(start);
    var s1 := BuildBoots(start, start, b, id);
    var s2 := BuildStrays(start, s1, b, id, 0);
    var s3 := ClearedAndMadeAgain(start, s2, b, 0);
    var s4 := BuildBoots(start, s3, b, id);
    var s5 := RecordLost(start, s4, b, id, 1);
    var s6 := BuildStrays(start, s5, b, id, 1);
    s := BuildBoots(start, s6, b, id);
  }
}
