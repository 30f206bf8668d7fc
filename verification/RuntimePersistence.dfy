/** stageRuntimePersistenceLocked and persistRuntime of lib/autostandby/controller.go, for
    one state object: writes are numbered under the controller's lock, persisted later by
    whichever goroutine staged them, one at a time, and dropped when they are no longer the
    newest or their state is no longer the instance's. */
module RuntimePersistence {
  import opened ConnectionClassifier
  import opened StandbyState

  /** Not yet in persistRuntime, holding runtimeMu, past the check, or finished. */
  datatype Phase = Waiting | Inside | Checked | Finished

  datatype Writer = Writer(runtime: Option<Runtime>, phase: Phase)

  datatype Stored = Stored(revision: nat, runtime: Option<Runtime>)

  /** Writer `k` carries revision `k + 1`; `calls` are the SetRuntime calls so far, `stored` is what the
      store holds after them, and `failed` says that one of them reported an error. */
  datatype Object = Object(revision: nat, attached: bool, writers: seq<Writer>, calls: seq<Stored>,
                           stored: Option<Runtime>, failed: bool)

  datatype Step =
    | Stage(runtime: Option<Runtime>)
    | Detach
    | Enter(k: nat)
    | Check(k: nat)
    | Set(k: nat, ok: bool)

  predicate At(s: Object, k: nat, p: Phase) { k < |s.writers| && s.writers[k].phase == p }

  /** Nobody holds runtimeMu. */
  predicate Unlocked(s: Object) {
    forall i :: 0 <= i < |s.writers| ==> s.writers[i].phase.Waiting? || s.writers[i].phase.Finished?
  }

  predicate Enabled(s: Object, e: Step) {
    match e
    case Stage(_) => true
    case Detach => true
    case Enter(k) => At(s, k, Waiting) && Unlocked(s)
    case Check(k) => At(s, k, Inside)
    case Set(k, _) => At(s, k, Checked)
  }

  function Move(s: Object, k: nat, p: Phase): Object
    requires k < |s.writers|
  {
    s.(writers := s.writers[k := s.writers[k].(phase := p)])
  }

  function Apply(s: Object, e: Step): Object
    requires Enabled(s, e)
  {
    match e
    case Stage(runtime) => s.(revision := s.revision + 1, writers := s.writers + [Writer(runtime, Waiting)])
    case Detach => s.(attached := false)
    case Enter(k) => Move(s, k, Inside)
    case Check(k) => Move(s, k, if s.attached && s.revision == k + 1 then Checked else Finished)
    case Set(k, ok) =>
      Move(s, k, Finished).(calls := s.calls + [Stored(k + 1, s.writers[k].runtime)],
                            stored := if ok then s.writers[k].runtime else s.stored,
                            failed := s.failed || !ok)
  }

  /** SetRuntime calls come in strictly increasing revision order. */
  ghost predicate Increasing(s: Object) {
    forall i, j :: 0 <= i < j < |s.calls| ==> s.calls[i].revision < s.calls[j].revision
  }

  /** Each call is that of a finished writer, with what was staged under its revision. */
  ghost predicate Owned(s: Object) {
    forall i :: 0 <= i < |s.calls| ==>
      var k := s.calls[i].revision - 1;
      0 <= k < |s.writers| && s.writers[k].phase.Finished? && s.calls[i].runtime == s.writers[k].runtime
  }

  ghost predicate Exclusive(s: Object) {
    && s.revision == |s.writers|
    && forall i, j :: 0 <= i < j < |s.writers| && Holds(s.writers[i]) ==> !Holds(s.writers[j])
  }

  predicate Holds(w: Writer) { w.phase.Inside? || w.phase.Checked? }

  /** A writer past the check is newer than every call. */
  ghost predicate Newest(s: Object) {
    forall k, i :: 0 <= k < |s.writers| && s.writers[k].phase.Checked? && 0 <= i < |s.calls| ==>
      s.calls[i].revision < k + 1
  }

  ghost predicate Called(s: Object, k: int) {
    exists i :: 0 <= i < |s.calls| && s.calls[i].revision == k + 1
  }

  /** While the state is attached, a finished writer made its call or was superseded. */
  ghost predicate Accounted(s: Object) {
    s.attached ==> forall k :: 0 <= k < |s.writers| && s.writers[k].phase.Finished? ==> k + 1 < s.revision || Called(s, k)
  }

  ghost predicate Kept(s: Object) {
    !s.failed && s.calls != [] ==> s.stored == s.calls[|s.calls| - 1].runtime
  }

  ghost predicate Inv(s: Object) {
    Exclusive(s) && Owned(s) && Newest(s) && Increasing(s) && Accounted(s) && Kept(s)
  }

  lemma NextKept(s: Object, e: Step)
    requires Inv(s) && Enabled(s, e)
    ensures Kept(Apply(s, e))
  {
    hide Exclusive, Owned, Newest, Increasing, Accounted;
  }

  lemma NextExclusive(s: Object, e: Step)
    requires Inv(s) && Enabled(s, e)
    ensures Exclusive(Apply(s, e))
  {
    hide Owned, Newest, Increasing, Accounted;
  }

  lemma NextOwned(s: Object, e: Step)
    requires Inv(s) && Enabled(s, e)
    ensures Owned(Apply(s, e))
  {
    hide Newest, Increasing, Accounted;
  }

  lemma NextNewest(s: Object, e: Step)
    requires Inv(s) && Enabled(s, e)
    ensures Newest(Apply(s, e))
  {
    hide Increasing, Accounted;
  }

  lemma NextIncreasing(s: Object, e: Step)
    requires Inv(s) && Enabled(s, e)
    ensures Increasing(Apply(s, e))
  {
    hide Owned, Exclusive, Accounted;
  }

  lemma NextAccounted(s: Object, e: Step)
    requires Inv(s) && Enabled(s, e)
    ensures Accounted(Apply(s, e))
  {
    hide Owned, Newest, Increasing;
    var r := Apply(s, e);
    if r.attached {
      forall k | 0 <= k < |r.writers| && r.writers[k].phase.Finished?
        ensures k + 1 < r.revision || Called(r, k)
      {
        if e.Set? && e.k == k {
          assert r.calls[|s.calls|].revision == k + 1;
        } else if k < |s.writers| && s.writers[k].phase.Finished? && Called(s, k) {
          var i :| 0 <= i < |s.calls| && s.calls[i].revision == k + 1;
          assert r.calls[i] == s.calls[i];
        }
      }
    }
  }

  ghost predicate Runs(s: Object, es: seq<Step>, r: Object)
    decreases |es|
  {
    if es == [] then r == s else Enabled(s, es[0]) && Runs(Apply(s, es[0]), es[1..], r)
  }

  ghost predicate Initial(s: Object) { s.revision == 0 && s.writers == [] && s.calls == [] && s.attached && !s.failed }

  lemma {:induction false} RunKeeps(s: Object, es: seq<Step>, r: Object)
    requires Inv(s) && Runs(s, es, r)
    ensures Inv(r)
    decreases |es|
  {
    hide Exclusive, Owned, Newest, Increasing, Accounted, Kept, Enabled, Apply;
    if es != [] {
      NextExclusive(s, es[0]);
      NextOwned(s, es[0]);
      NextNewest(s, es[0]);
      NextIncreasing(s, es[0]);
      NextAccounted(s, es[0]);
      NextKept(s, es[0]);
      RunKeeps(Apply(s, es[0]), es[1..], r);
    }
  }

  lemma Numbered(s: Object)
    requires Exclusive(s)
    ensures s.revision == |s.writers|
  {}

  ghost predicate Drained(s: Object) {
    forall k :: 0 <= k < |s.writers| ==> s.writers[k].phase.Finished?
  }

  lemma NewestWasCalled(r: Object) returns (i: nat)
    requires Accounted(r) && r.revision == |r.writers|
    requires r.attached && r.writers != [] && Drained(r)
    ensures i < |r.calls| && r.calls[i].revision == r.revision
  {
    var k := |r.writers| - 1;
    assert r.writers[k].phase.Finished?;
    assert Called(r, k);
    i :| 0 <= i < |r.calls| && r.calls[i].revision == k + 1;
  }

  lemma LastCallIsNewest(r: Object)
    requires Owned(r) && Increasing(r) && Accounted(r) && r.revision == |r.writers|
    requires r.attached && r.writers != [] && Drained(r)
    ensures r.calls != [] && r.calls[|r.calls| - 1] == Stored(r.revision, r.writers[|r.writers| - 1].runtime)
  {
    hide Accounted, Drained;
    var i := NewestWasCalled(r);
    var last := |r.calls| - 1;
    assert r.calls[last].revision - 1 < |r.writers|;
  }

  /** Persistence order: in every interleaving the SetRuntime calls of one state object carry
      strictly increasing revisions, each with the runtime staged under its own. Once every
      staged write is finished, the state was never removed and no call failed, the store
      holds the runtime staged last. */
  lemma PersistenceOrder(s: Object, es: seq<Step>, r: Object)
    requires Initial(s) && Runs(s, es, r)
    ensures Increasing(r) && Owned(r)
    ensures r.attached && r.writers != [] && Drained(r) ==>
      && r.calls != [] && r.calls[|r.calls| - 1] == Stored(r.revision, r.writers[|r.writers| - 1].runtime)
      && (!r.failed ==> r.stored == r.writers[|r.writers| - 1].runtime)
  {
    assert Inv(s);
    hide Runs, Exclusive, Owned, Newest, Increasing, Accounted, Drained;
    RunKeeps(s, es, r);
    Numbered(r);
    if r.attached && r.writers != [] && Drained(r) {
      LastCallIsNewest(r);
    }
  }
}
