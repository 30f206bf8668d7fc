/** The generation-checked cache of disk usage totals: lib/images/disk_usage.go, the
    build bracket of lib/images/layer_artifact.go and the image writers of
    lib/images/manager.go. Readers and refreshers scan the image tree without a lock
    while writers change it; what is under `diskUsageMu` is one step.

    Writers come in three kinds. Layer writers invalidate the totals after their changes. Image
    writers hold `createMu`, change the tree and then refresh the totals, which starts no new
    generation and is given up silently when the scan fails. Pulls write blobs and announce
    nothing. */
module DiskUsageCache {
  type Path = string
  type Thread = nat

  datatype Option<T> = None | Some(value: T)

  /** Bytes counted for ready images, and for the blob cache with the layer artifacts. */
  datatype Totals = Totals(ready: nat, cache: nat)

  function Plus(a: Totals, b: Totals): Totals { Totals(a.ready + b.ready, a.cache + b.cache) }

  type Tree = map<Path, Totals>

  /** What a scan of an unchanging tree reports. */
  ghost function Bytes(t: Tree): Totals
    decreases |t|
  {
    if t == map[] then Totals(0, 0)
    else
      var p :| p in t;
      Plus(Bytes(t - {p}), t[p])
  }

  /** The order of the visits does not matter. */
  lemma {:induction false} BytesOf(t: Tree, p: Path)
    requires p in t
    ensures Bytes(t) == Plus(Bytes(t - {p}), t[p])
    decreases |t|
  {
    var q :| q in t && Bytes(t) == Plus(Bytes(t - {q}), t[q]);
    if p != q {
      var tq, tp := t - {q}, t - {p};
      assert p in tq && q in tp;
      BytesOf(tq, p);
      BytesOf(tp, q);
      assert tq - {p} == tp - {q};
      assert Bytes(t) == Plus(Plus(Bytes(tq - {p}), t[p]), t[q]);
      assert Bytes(tp) == Plus(Bytes(tp - {q}), t[q]);
    }
  }

  lemma BytesAdds(t: Tree, p: Path, b: Totals)
    requires p !in t
    ensures Bytes(t[p := b]) == Plus(Bytes(t), b)
  {
    BytesOf(t[p := b], p);
    assert t[p := b] - {p} == t;
  }

  /** A scan: the generation and the tree version it began with, what it has read so far, and the
      running totals. */
  datatype Scan = Scan(generation: nat, version: nat, seen: Tree, sum: Totals)

  datatype Pc =
    | Idle
    | Retrying(attempt: nat)
    | Reading(attempt: nat, scan: Scan)
    | Refreshing(scan: Scan)
    | Returned(totals: Totals)
    | Refused

  /** What the cache does not see: `version` counts the changes to the tree, `bumped` is the
      version at the start of the current generation, `layerAt`, `imageAt` and `pullAt` are the
      versions after the latest change of each kind, `owing` are the layer writers that have
      changed the tree and not yet invalidated, and `basis` is the version at which the scan
      behind the totals began. */
  datatype State = State(tree: Tree, version: nat, bumped: nat, layerAt: nat, imageAt: nat, pullAt: nat,
                         owing: set<Thread>, createMu: Option<Thread>,
                         building: set<Thread>, generation: nat, loaded: bool, totals: Totals,
                         basis: nat, begun: nat, threads: map<Thread, Pc>)

  datatype Event =
    | LayerChange(w: Thread, tree: Tree)
    | Invalidate(w: Thread)
    | BeginBuild(w: Thread)
    | EndBuild(w: Thread)
    | Pull(tree: Tree)
    | LockImages(t: Thread)
    | ImageChange(t: Thread, tree: Tree)
    | UnlockImages(t: Thread)
    | Look(t: Thread)
    | Refresh(t: Thread)
    | Visit(t: Thread, p: Path)
    | Settle(t: Thread)
    | Give(t: Thread)

  function Begin(s: State): Scan { Scan(s.generation, s.version, map[], Totals(0, 0)) }

  predicate Scanning(pc: Pc) { pc.Reading? || pc.Refreshing? }

  predicate IdleAt(s: State, t: Thread) { t in s.threads && s.threads[t].Idle? }

  predicate ScanningAt(s: State, t: Thread) { t in s.threads && Scanning(s.threads[t]) }

  /** The walk is over: nothing left to visit, unless the tree changed under it. */
  predicate Complete(s: State, scan: Scan) {
    scan.version == s.version ==> s.tree.Keys <= scan.seen.Keys
  }

  predicate Enabled(s: State, e: Event) {
    match e
    case LayerChange(_, _) => true
    case Invalidate(_) => true
    case BeginBuild(w) => w !in s.building
    case EndBuild(w) => w in s.building
    case Pull(_) => true
    case LockImages(t) => s.createMu.None? && IdleAt(s, t)
    case ImageChange(t, _) => s.createMu == Some(t) && IdleAt(s, t)
    case UnlockImages(t) => s.createMu == Some(t) && !ScanningAt(s, t)
    case Look(t) => t in s.threads && (s.threads[t].Idle? || s.threads[t].Retrying?)
    case Refresh(t) => IdleAt(s, t)
    case Visit(t, p) => ScanningAt(s, t) && p !in s.threads[t].scan.seen
    case Settle(t) => ScanningAt(s, t) && Complete(s, s.threads[t].scan)
    case Give(t) => ScanningAt(s, t)
  }

  /** A new generation: whatever was loaded or is being scanned is out of date. */
  function Bump(s: State): State { s.(generation := s.generation + 1, loaded := false, bumped := s.version) }

  function Changed(s: State, tree: Tree): State { s.(tree := tree, version := s.version + 1) }

  /** How often a reader has already scanned in vain. */
  function Attempt(pc: Pc): nat { if pc.Retrying? then pc.attempt else 0 }

  /** getDiskUsageTotals up to the scan. */
  function LookStep(s: State, t: Thread, attempt: nat): State {
    s.(threads := s.threads[t := if s.loaded then Returned(s.totals) else Reading(attempt, Begin(s))])
  }

  function VisitScan(tree: Tree, scan: Scan, p: Path): Scan {
    var b := if p in tree then tree[p] else Totals(0, 0);
    scan.(seen := scan.seen[p := b], sum := Plus(scan.sum, b))
  }

  function Stored(s: State, scan: Scan): State {
    s.(loaded := true, totals := scan.sum, basis := scan.version, begun := scan.generation)
  }

  /** getDiskUsageTotals after its scan. */
  function SettleRead(s: State, t: Thread, attempt: nat, scan: Scan): State {
    if s.generation != scan.generation then
      s.(threads := s.threads[t := if attempt >= 2 then Refused else Retrying(attempt + 1)])
    else if s.building == {} then
      var r := if s.loaded then s else Stored(s, scan);
      r.(threads := r.threads[t := Returned(r.totals)])
    else s.(threads := s.threads[t := Returned(scan.sum)])
  }

  /** refreshDiskUsageTotals after its scan. */
  function SettleRefresh(s: State, t: Thread, scan: Scan): State {
    var r := if s.generation == scan.generation && s.building == {} then Stored(s, scan) else s;
    r.(threads := r.threads[t := Idle])
  }

  function Apply(s: State, e: Event): State
    requires Enabled(s, e)
  {
    match e
    case LayerChange(w, tree) => Changed(s, tree).(owing := s.owing + {w}, layerAt := s.version + 1)
    case Invalidate(w) => Bump(s.(owing := s.owing - {w}))
    case BeginBuild(w) => Bump(s.(building := s.building + {w}, owing := s.owing - {w}))
    case EndBuild(w) => Bump(s.(building := s.building - {w}, owing := s.owing - {w}))
    case Pull(tree) => Changed(s, tree).(pullAt := s.version + 1)
    case LockImages(t) => s.(createMu := Some(t))
    case ImageChange(t, tree) => Changed(s, tree).(imageAt := s.version + 1)
    case UnlockImages(t) => s.(createMu := None)
    case Look(t) => LookStep(s, t, Attempt(s.threads[t]))
    case Refresh(t) => s.(threads := s.threads[t := Refreshing(Begin(s))])
    case Visit(t, p) =>
      var pc := s.threads[t];
      var scan := VisitScan(s.tree, pc.scan, p);
      s.(threads := s.threads[t := if pc.Reading? then Reading(pc.attempt, scan) else Refreshing(scan)])
    case Settle(t) =>
      var pc := s.threads[t];
      if pc.Reading? then SettleRead(s, t, pc.attempt, pc.scan) else SettleRefresh(s, t, pc.scan)
    case Give(t) => s.(threads := s.threads[t := if s.threads[t].Reading? then Refused else Idle])
  }

  /* ---- what every step keeps ---- */

  /** A scan under which the tree has not changed has read it as it is, and one of the current generation
      began in it. */
  ghost predicate Current(s: State, scan: Scan) {
    && scan.sum == Bytes(scan.seen)
    && scan.version <= s.version && scan.generation <= s.generation
    && (scan.generation == s.generation ==> s.bumped <= scan.version)
    && (scan.version == s.version ==>
          forall p :: p in scan.seen ==> scan.seen[p] == if p in s.tree then s.tree[p] else Totals(0, 0))
  }

  ghost predicate ThreadOk(s: State, pc: Pc) {
    && (Scanning(pc) ==> Current(s, pc.scan))
    && (pc.Reading? || pc.Retrying? ==> pc.attempt <= 2)
  }

  ghost predicate Cached(s: State) {
    s.loaded ==>
      && s.building == {} && s.begun == s.generation && s.bumped <= s.basis <= s.version
      && (s.basis == s.version ==> s.totals == Bytes(s.tree))
  }

  /** Every change is of one of the three kinds, and when every layer writer has invalidated none of
      their changes is of this generation. */
  ghost predicate Dated(s: State) {
    && s.bumped <= s.version
    && (s.version == 0 || s.version == s.layerAt || s.version == s.imageAt || s.version == s.pullAt)
    && s.layerAt <= s.version && s.imageAt <= s.version && s.pullAt <= s.version
    && (s.owing == {} ==> s.layerAt <= s.bumped)
  }

  /** The image writer in `createMu` has not changed anything since it began to scan. */
  ghost predicate Guarded(s: State) {
    s.createMu.Some? && ScanningAt(s, s.createMu.value) ==>
      s.imageAt <= s.threads[s.createMu.value].scan.version
  }

  ghost predicate ThreadsOk(s: State) {
    forall t :: t in s.threads ==> ThreadOk(s, s.threads[t])
  }

  ghost predicate Inv(s: State) { Cached(s) && Dated(s) && Guarded(s) && ThreadsOk(s) }

  lemma CompleteIsExact(s: State, scan: Scan)
    requires Current(s, scan) && Complete(s, scan) && scan.version == s.version
    ensures scan.sum == Bytes(s.tree)
  {
    BytesOfPadded(s.tree, scan.seen);
  }

  /** Visiting paths that are no longer there adds nothing. */
  lemma {:induction false} BytesOfPadded(tree: Tree, seen: Tree)
    requires tree.Keys <= seen.Keys
    requires forall p :: p in seen ==> seen[p] == if p in tree then tree[p] else Totals(0, 0)
    ensures Bytes(seen) == Bytes(tree)
    decreases |seen|
  {
    hide Bytes;
    if p :| p in seen && p !in tree {
      BytesOf(seen, p);
      var rest := seen - {p};
      assert |rest| == |seen| - 1;
      BytesOfPadded(tree, rest);
    } else {
      assert seen.Keys == tree.Keys;
      assert seen == tree;
    }
  }

  /** Scans survive whatever happens around them. */
  lemma OthersOk(s: State, r: State, t: Thread)
    requires ThreadsOk(s)
    requires r.threads.Keys == s.threads.Keys
    requires forall u :: u in s.threads && u != t ==> r.threads[u] == s.threads[u]
    requires t in r.threads ==> ThreadOk(r, r.threads[t])
    requires r.version >= s.version && r.generation >= s.generation
    requires r.generation == s.generation ==> r.bumped == s.bumped
    requires r.version == s.version ==> r.tree == s.tree
    ensures ThreadsOk(r)
  {
    forall u | u in r.threads && u != t
      ensures ThreadOk(r, r.threads[u])
    {
      assert ThreadOk(s, s.threads[u]);
    }
  }

  predicate Writing(e: Event) {
    || e.LayerChange? || e.Invalidate? || e.BeginBuild? || e.EndBuild? || e.Pull?
    || e.LockImages? || e.ImageChange? || e.UnlockImages?
  }

  lemma WriterKeeps(s: State, e: Event)
    requires Inv(s) && Enabled(s, e) && Writing(e)
    ensures Inv(Apply(s, e))
  {
    hide Bytes;
    var r := Apply(s, e);
    forall t | t in s.threads
      ensures ThreadOk(r, s.threads[t])
    {
      assert ThreadOk(s, s.threads[t]);
    }
  }

  lemma VisitKeeps(s: State, t: Thread, p: Path)
    requires Inv(s) && Enabled(s, Visit(t, p))
    ensures Inv(Apply(s, Visit(t, p)))
  {
    hide Bytes;
    var r := Apply(s, Visit(t, p));
    var scan := s.threads[t].scan;
    assert ThreadOk(s, s.threads[t]);
    var b := if p in s.tree then s.tree[p] else Totals(0, 0);
    BytesAdds(scan.seen, p, b);
    assert Current(r, VisitScan(s.tree, scan, p));
    OthersOk(s, r, t);
  }

  lemma LookKeeps(s: State, t: Thread)
    requires Inv(s) && Enabled(s, Look(t))
    ensures Inv(Apply(s, Look(t)))
  {
    assert Bytes(map[]) == Totals(0, 0);
    assert ThreadOk(s, s.threads[t]);
    OthersOk(s, Apply(s, Look(t)), t);
  }

  lemma RefreshKeeps(s: State, t: Thread)
    requires Inv(s) && Enabled(s, Refresh(t))
    ensures Inv(Apply(s, Refresh(t)))
  {
    assert Bytes(map[]) == Totals(0, 0);
    OthersOk(s, Apply(s, Refresh(t)), t);
  }

  lemma StoredKeeps(s: State, scan: Scan)
    requires Inv(s) && Current(s, scan) && Complete(s, scan)
    requires s.building == {} && scan.generation == s.generation
    ensures Inv(Stored(s, scan))
  {
    hide Bytes;
    if scan.version == s.version {
      CompleteIsExact(s, scan);
    }
    var r := Stored(s, scan);
    forall t | t in s.threads
      ensures ThreadOk(r, s.threads[t])
    {
      assert ThreadOk(s, s.threads[t]);
    }
  }

  /** A thread that stops scanning. */
  lemma StopKeeps(s: State, t: Thread, pc: Pc)
    requires Inv(s) && t in s.threads && !Scanning(pc)
    requires pc.Retrying? ==> pc.attempt <= 2
    ensures Inv(s.(threads := s.threads[t := pc]))
  {
    hide Bytes;
    OthersOk(s, s.(threads := s.threads[t := pc]), t);
  }

  lemma SettleKeeps(s: State, t: Thread)
    requires Inv(s) && Enabled(s, Settle(t))
    ensures Inv(Apply(s, Settle(t)))
  {
    var scan, r := s.threads[t].scan, Apply(s, Settle(t));
    assert ThreadOk(s, s.threads[t]);
    assert Inv(if Stores(s, Settle(t)) then Stored(s, scan) else s) by {
      if Stores(s, Settle(t)) {
        StoredKeeps(s, scan);
      }
    }
    hide Inv;
    StopKeeps(if Stores(s, Settle(t)) then Stored(s, scan) else s, t, r.threads[t]);
  }

  lemma GiveKeeps(s: State, t: Thread)
    requires Inv(s) && Enabled(s, Give(t))
    ensures Inv(Apply(s, Give(t)))
  {
    OthersOk(s, Apply(s, Give(t)), t);
  }

  lemma ApplyKeeps(s: State, e: Event)
    requires Inv(s) && Enabled(s, e)
    ensures Inv(Apply(s, e))
  {
    hide Inv;
    match e
    case Look(t) => LookKeeps(s, t);
    case Refresh(t) => RefreshKeeps(s, t);
    case Visit(t, p) => VisitKeeps(s, t, p);
    case Settle(t) => SettleKeeps(s, t);
    case Give(t) => GiveKeeps(s, t);
    case _ => WriterKeeps(s, e);
  }

  /* ---- runs ---- */

  ghost predicate Runs(s: State, es: seq<Event>, r: State)
    decreases |es|
  {
    if es == [] then r == s
    else Enabled(s, es[0]) && Runs(Apply(s, es[0]), es[1..], r)
  }

  /** A fresh store: nothing loaded, nobody building or writing, and every thread idle. */
  ghost predicate Initial(s: State) {
    && !s.loaded && s.building == {} && s.owing == {} && s.createMu.None?
    && s.version == 0 && s.bumped == 0 && s.layerAt == 0 && s.imageAt == 0 && s.pullAt == 0
    && forall t :: t in s.threads ==> s.threads[t].Idle?
  }

  lemma {:induction false} RunKeeps(s: State, es: seq<Event>, r: State)
    requires Inv(s) && Runs(s, es, r)
    ensures Inv(r)
    decreases |es|
  {
    hide Inv;
    if es != [] {
      ApplyKeeps(s, es[0]);
      RunKeeps(Apply(s, es[0]), es[1..], r);
    }
  }

  /** The totals are those of a scan begun after the latest change. */
  ghost predicate Fresh(s: State) { s.loaded ==> s.basis == s.version }

  /** Coherence over whole runs, whatever the writers do: loaded totals mean that nobody is
      building and that they come from a scan begun in the current generation. They are what a
      plain scan would find now if that scan began after the latest change: so when nothing has
      changed in this generation, and when every layer writer has invalidated and no image
      writer or pull has changed the tree since the scan began. */
  lemma CacheCoherence(s: State, es: seq<Event>, r: State)
    requires Initial(s) && Runs(s, es, r) && r.loaded
    ensures r.building == {} && r.begun == r.generation
    ensures Fresh(r) ==> r.totals == Bytes(r.tree)
    ensures r.version == r.bumped ==> Fresh(r)
    ensures r.owing == {} && r.imageAt <= r.basis && r.pullAt <= r.basis ==> Fresh(r)
  {
    RunKeeps(s, es, r);
  }

  /* ---- when stale totals stay loaded ---- */

  predicate Bumps(e: Event) { e.Invalidate? || e.BeginBuild? || e.EndBuild? }

  predicate Changes(e: Event) { e.LayerChange? || e.ImageChange? || e.Pull? }

  /** The settle writes the totals of its scan into the cache. */
  predicate Stores(s: State, e: Event) {
    && e.Settle? && ScanningAt(s, e.t) && s.building == {}
    && s.threads[e.t].scan.generation == s.generation && (s.threads[e.t].Refreshing? || !s.loaded)
  }

  /** A change under loaded totals, or the storing of a scan under which the tree has changed. */
  predicate Spoils(s: State, e: Event) {
    (Changes(e) && s.loaded) || (Stores(s, e) && s.threads[e.t].scan.version != s.version)
  }

  /** A new generation, or the storing of a scan begun after the latest change. */
  predicate Mends(s: State, e: Event) {
    Bumps(e) || (Stores(s, e) && s.threads[e.t].scan.version == s.version)
  }

  lemma FreshStep(s: State, e: Event)
    requires Inv(s) && Enabled(s, e)
    ensures Fresh(Apply(s, e)) <==> !Spoils(s, e) && (Fresh(s) || Mends(s, e))
  {
    hide Bytes, Guarded, ThreadsOk;
  }

  ghost predicate IsRun(path: seq<State>, es: seq<Event>) {
    && |path| == |es| + 1
    && forall i :: 0 <= i < |es| ==> Enabled(path[i], es[i]) && path[i + 1] == Apply(path[i], es[i])
  }

  /** Step `j` spoils the totals and no step from there to `k` mends them. */
  ghost predicate SpoiltFrom(path: seq<State>, es: seq<Event>, j: nat, k: nat)
    requires IsRun(path, es) && k <= |es|
  {
    j < k && Spoils(path[j], es[j]) && forall i :: j < i < k ==> !Mends(path[i], es[i])
  }

  lemma {:induction false} IsRunKeeps(path: seq<State>, es: seq<Event>, k: nat)
    requires IsRun(path, es) && k <= |es| && Inv(path[0])
    ensures Inv(path[k])
    decreases k
  {
    hide Inv, Enabled, Apply;
    if k > 0 {
      IsRunKeeps(path, es, k - 1);
      ApplyKeeps(path[k - 1], es[k - 1]);
    }
  }

  /** Exactly when the loaded totals may be stale, over whole runs: some step has spoilt them and
      none has mended them since. In particular they stay so after an image writer's change
      whose refresh fails, until the next new generation or stored refresh. */
  lemma {:induction false} StaleIff(path: seq<State>, es: seq<Event>, k: nat)
    requires IsRun(path, es) && k <= |es| && Inv(path[0]) && Fresh(path[0])
    ensures !Fresh(path[k]) <==> exists j :: SpoiltFrom(path, es, j, k)
    decreases k
  {
    hide Inv, Enabled, Apply, Fresh, Spoils, Mends;
    if k > 0 {
      var i := k - 1;
      StaleIff(path, es, i);
      IsRunKeeps(path, es, i);
      FreshStep(path[i], es[i]);
      forall j | SpoiltFrom(path, es, j, k) && j != i
        ensures SpoiltFrom(path, es, j, i) && !Mends(path[i], es[i])
      {}
      if Spoils(path[i], es[i]) {
        assert SpoiltFrom(path, es, i, k);
      } else if !Fresh(path[i]) && !Mends(path[i], es[i]) {
        var j :| SpoiltFrom(path, es, j, i);
        assert SpoiltFrom(path, es, j, k);
      }
    }
  }

  /** What a stored refresh leaves: totals that are exact if nothing has changed since the scan
      began. For an image writer that is so as long as every layer writer has invalidated after
      its changes and no pull has written since the scan began. */
  lemma StoredRefresh(s: State, t: Thread)
    requires Inv(s) && Enabled(s, Settle(t)) && Stores(s, Settle(t))
    ensures
      var r := Apply(s, Settle(t));
      && r.loaded && r.basis == s.threads[t].scan.version
      && (Fresh(r) ==> r.totals == Bytes(r.tree))
      && (s.createMu == Some(t) && s.owing == {} && s.pullAt <= s.threads[t].scan.version ==> Fresh(r))
  {
    hide Bytes;
    assert ThreadOk(s, s.threads[t]);
    if s.threads[t].scan.version == s.version {
      CompleteIsExact(s, s.threads[t].scan);
    }
  }

  lemma {:induction false} RunsAppend(s: State, es: seq<Event>, m: State, e: Event)
    requires Runs(s, es, m) && Enabled(m, e)
    ensures Runs(s, es + [e], Apply(m, e))
    decreases |es|
  {
    if es == [] {
      assert [e][1..] == [];
    } else {
      RunsAppend(Apply(s, es[0]), es[1..], m, e);
      assert (es + [e])[1..] == es[1..] + [e];
    }
  }

  lemma {:induction false} RunsConcat(s: State, es: seq<Event>, m: State, fs: seq<Event>, r: State)
    requires Runs(s, es, m) && Runs(m, fs, r)
    ensures Runs(s, es + fs, r)
    decreases |es|
  {
    if es == [] {
      assert es + fs == fs;
    } else {
      RunsConcat(Apply(s, es[0]), es[1..], m, fs, r);
      assert (es + fs)[1..] == es[1..] + fs;
    }
  }

  /** Some run leads from `s` to `r`. */
  ghost predicate Reaches(s: State, r: State) {
    exists es :: Runs(s, es, r)
  }

  lemma ReachesStep(s: State, m: State, e: Event)
    requires Reaches(s, m) && Enabled(m, e)
    ensures Reaches(s, Apply(m, e))
  {
    var es :| Runs(s, es, m);
    RunsAppend(s, es, m, e);
  }

  lemma ReachesTrans(s: State, m: State, r: State)
    requires Reaches(s, m) && Reaches(m, r)
    ensures Reaches(s, r)
  {
    var es :| Runs(s, es, m);
    var fs :| Runs(m, fs, r);
    RunsConcat(s, es, m, fs, r);
  }

  lemma ReachesSelf(s: State)
    ensures Reaches(s, s)
  {
    assert Runs(s, [], s);
  }

  /** What an image writer does when its scan fails. */
  function FailedRefresh(t: Thread, tree: Tree): seq<Event> {
    [LockImages(t), ImageChange(t, tree), Refresh(t), Give(t), UnlockImages(t)]
  }

  /** An image writer whose scan fails leaves the totals as they were, loaded, over a tree they do
      not describe; no thread scans and no writer owes anything that did not before. */
  lemma FailedRefreshLeavesStale(s: State, t: Thread, tree: Tree) returns (r: State)
    requires s.loaded && s.createMu.None? && IdleAt(s, t) && Bytes(tree) != s.totals
    ensures Runs(s, FailedRefresh(t, tree), r)
    ensures r.loaded && r.tree == tree && r.totals == s.totals != Bytes(r.tree)
    ensures r.owing == s.owing && r.createMu.None? && r.building == s.building && r.threads == s.threads
  {
    hide Bytes;
    var es := FailedRefresh(t, tree);
    var s1 := Apply(s, es[0]);
    var s2 := Apply(s1, es[1]);
    var s3 := Apply(s2, es[2]);
    var s4 := Apply(s3, es[3]);
    r := Apply(s4, es[4]);
    assert r.threads == s.threads;
    RunsOn(s4, es[4..], r);
    RunsOn(s3, es[3..], r);
    RunsOn(s2, es[2..], r);
    RunsOn(s1, es[1..], r);
    RunsOn(s, es, r);
  }

  lemma RunsOn(s: State, es: seq<Event>, r: State)
    requires es != [] && Enabled(s, es[0]) && Runs(Apply(s, es[0]), es[1..], r)
    ensures Runs(s, es, r)
  {}

  /** And such a state is reached from a fresh store: a reader loads the totals of an empty tree,
      then an image writer adds bytes and its scan fails. */
  lemma StaleIsReachable(p: Path, b: Totals) returns (s: State, r: State)
    requires b != Totals(0, 0)
    ensures Initial(s) && Reaches(s, r)
    ensures r.loaded && r.totals != Bytes(r.tree)
    ensures r.owing == {} && r.createMu.None? && r.building == {}
    ensures forall t :: t in r.threads ==> !Scanning(r.threads[t])
  {
    var m;
    s, m := EmptyIsLoaded();
    var tree: Tree := map[p := b];
    assert Bytes(tree) == b by {
      BytesAdds(map[], p, b);
      assert map[][p := b] == tree;
    }
    r := FailedRefreshLeavesStale(m, 1, tree);
    ReachesTrans(s, m, r);
  }

  lemma EmptyIsLoaded() returns (s: State, m: State)
    ensures Initial(s) && Reaches(s, m)
    ensures m.loaded && m.totals == Totals(0, 0) && m.createMu.None? && m.owing == {} && m.building == {}
    ensures m.threads == map[0 := Returned(Totals(0, 0)), 1 := Idle]
  {
    hide Bytes;
    s := State(map[], 0, 0, 0, 0, 0, {}, None, {}, 0, false, Totals(0, 0), 0, 0, map[0 := Idle, 1 := Idle]);
    var s1 := Apply(s, Look(0));
    m := Apply(s1, Settle(0));
    ReachesSelf(s);
    ReachesStep(s, s, Look(0));
    ReachesStep(s, s1, Settle(0));
  }

  /* ---- readers ---- */

  /** The tree version at which the scan behind a reader's answer began. */
  function AnswerBasis(s: State, t: Thread, e: Event): nat
    requires Enabled(s, e) && (e == Look(t) || e == Settle(t))
  {
    if e.Look? || (s.building == {} && s.loaded) then s.basis else s.threads[t].scan.version
  }

  /** A reader returns exactly what a plain scan would find at that moment, from the cache or from
      its own scan, builds or no builds, if nothing has changed since the scan behind its
      answer began; and that scan began in the current generation. */
  lemma ReaderAnswers(s: State, t: Thread, e: Event)
    requires Inv(s) && Enabled(s, e) && (e == Look(t) || e == Settle(t))
    requires t in s.threads && !s.threads[t].Refreshing? && Apply(s, e).threads[t].Returned?
    ensures s.bumped <= AnswerBasis(s, t, e) <= s.version
    ensures AnswerBasis(s, t, e) == s.version ==> Apply(s, e).threads[t].totals == Bytes(s.tree)
  {
    hide Bytes;
    if e.Settle? {
      var scan := s.threads[t].scan;
      assert ThreadOk(s, s.threads[t]);
      if scan.version == s.version {
        CompleteIsExact(s, scan);
      }
    }
  }

  /** The step is not one of thread `t`. */
  predicate NotBy(e: Event, t: Thread) {
    (e.Look? || e.Refresh? || e.Visit? || e.Settle? || e.Give? || e.LockImages? || e.ImageChange? || e.UnlockImages?) ==>
      e.t != t
  }

  lemma LeavesAlone(s: State, e: Event, t: Thread)
    requires Enabled(s, e) && NotBy(e, t) && t in s.threads
    ensures t in Apply(s, e).threads && Apply(s, e).threads[t] == s.threads[t]
    ensures s.createMu == Some(t) <==> Apply(s, e).createMu == Some(t)
  {}

  lemma NeverBack(s: State, e: Event)
    requires Enabled(s, e)
    ensures Apply(s, e).version >= s.version
  {}

  /** The part of the state that the source does not keep. */
  datatype History = History(version: nat, bumped: nat, layerAt: nat, imageAt: nat, pullAt: nat,
                             owing: set<Thread>, basis: nat, begun: nat)

  function Past(s: State): History {
    History(s.version, s.bumped, s.layerAt, s.imageAt, s.pullAt, s.owing, s.basis, s.begun)
  }

  /** The layer store's cache fields with the tree they describe. Other threads run between
      the locked sections of the methods below. */
  class LayerStore {
    var tree: Tree
    var past: History
    var createMu: Option<Thread>
    var building: set<Thread>
    var generation: nat
    var loaded: bool
    var totals: Totals
    var threads: map<Thread, Pc>

    function View(): State
      reads this
    {
      State(tree, past.version, past.bumped, past.layerAt, past.imageAt, past.pullAt, past.owing, createMu, building,
            generation, loaded, totals, past.basis, past.begun, threads)
    }

    /** One step of any thread. */
    method Step(e: Event)
      requires Inv(View()) && Enabled(View(), e)
      modifies this
      ensures View() == Apply(old(View()), e) && Inv(View())
    {
      hide Inv, Enabled, Apply;
      ApplyKeeps(View(), e);
      var s := Apply(View(), e);
      tree, past, createMu, building, generation := s.tree, Past(s), s.createMu, s.building, s.generation;
      loaded, totals, threads := s.loaded, s.totals, s.threads;
    }

    /** Any number of steps of threads other than `t`. */
    method Others(t: Thread)
      requires Inv(View()) && t in threads
      modifies this
      ensures Inv(View()) && Reaches(old(View()), View())
      ensures t in threads && threads[t] == old(threads[t])
      ensures createMu == Some(t) <==> old(createMu) == Some(t)
      ensures past.version >= old(past.version)
    {
      hide Inv, Enabled, Apply, Runs, Reaches;
      var n: int := *;
      var i := 0;
      ReachesSelf(View());
      while i < n
        invariant Inv(View()) && Reaches(old(View()), View())
        invariant t in threads && threads[t] == old(threads[t])
        invariant createMu == Some(t) <==> old(createMu) == Some(t)
        invariant past.version >= old(past.version)
      {
        i := i + 1;
        var e: Event := *;
        if Enabled(View(), e) && NotBy(e, t) {
          ReachesStep(old(View()), View(), e);
          LeavesAlone(View(), e, t);
          NeverBack(View(), e);
          Step(e);
        }
      }
    }

    method Invalidate(w: Thread)
      requires Inv(View())
      modifies this
      ensures View() == Apply(old(View()), Event.Invalidate(w)) && Inv(View())
    {
      hide Inv;
      ApplyKeeps(View(), Event.Invalidate(w));
      generation, loaded := generation + 1, false;
      past := past.(owing := past.owing - {w}, bumped := past.version);
    }

    method BeginLayerBuild(w: Thread)
      requires Inv(View()) && w !in building
      modifies this
      ensures View() == Apply(old(View()), BeginBuild(w)) && Inv(View())
    {
      hide Inv;
      ApplyKeeps(View(), BeginBuild(w));
      building := building + {w};
      generation, loaded := generation + 1, false;
      past := past.(owing := past.owing - {w}, bumped := past.version);
    }

    method EndLayerBuild(w: Thread)
      requires Inv(View()) && w in building
      modifies this
      ensures View() == Apply(old(View()), EndBuild(w)) && Inv(View())
    {
      hide Inv;
      ApplyKeeps(View(), EndBuild(w));
      building := building - {w};
      generation, loaded := generation + 1, false;
      past := past.(owing := past.owing - {w}, bumped := past.version);
    }

    /** computeDiskUsageTotals: visits the tree while other threads run. */
    method Compute(t: Thread) returns (ok: bool)
      requires Inv(View()) && t in threads && Scanning(threads[t])
      modifies this
      ensures Inv(View()) && Reaches(old(View()), View())
      ensures t in threads && Scanning(threads[t])
      ensures threads[t].Reading? == old(threads[t]).Reading?
      ensures threads[t].Reading? ==> threads[t].attempt == old(threads[t]).attempt
      ensures threads[t].scan.generation == old(threads[t]).scan.generation
      ensures threads[t].scan.version == old(threads[t]).scan.version
      ensures createMu == Some(t) <==> old(createMu) == Some(t)
      ensures ok ==> Complete(View(), threads[t].scan)
    {
      hide Inv, Runs, Reaches;
      var n: int := *;
      var i := 0;
      ReachesSelf(View());
      while i < n
        invariant Inv(View()) && Reaches(old(View()), View())
        invariant t in threads && Scanning(threads[t])
        invariant threads[t].Reading? == old(threads[t]).Reading?
        invariant threads[t].Reading? ==> threads[t].attempt == old(threads[t]).attempt
        invariant threads[t].scan.generation == old(threads[t]).scan.generation
        invariant threads[t].scan.version == old(threads[t]).scan.version
        invariant createMu == Some(t) <==> old(createMu) == Some(t)
      {
        i := i + 1;
        ghost var before := View();
        Others(t);
        ReachesTrans(old(View()), before, View());
        var p: Path := *;
        if p !in threads[t].scan.seen {
          ReachesStep(old(View()), View(), Visit(t, p));
          Step(Visit(t, p));
        }
      }
      var failed: bool := *;
      ok := !failed && Complete(View(), threads[t].scan);
    }

    /** getDiskUsageTotals: at most three scans. An answer comes from a scan of the current
        generation, begun at version `began`, and is what a plain scan finds if nothing has
        changed since. */
    method GetDiskUsageTotals(t: Thread) returns (r: Option<Totals>, scans: nat, ghost began: nat)
      requires Inv(View()) && t in threads && threads[t].Idle?
      modifies this
      ensures Inv(View()) && Reaches(old(View()), View())
      ensures scans <= 3
      ensures r.Some? ==> past.bumped <= began <= past.version
      ensures r.Some? && began == past.version ==> r.value == Bytes(tree)
    {
      hide Inv, Enabled, Apply, Runs, Reaches, Bytes;
      scans, began := 0, 0;
      ReachesSelf(View());
      var attempt := 0;
      while true
        invariant Inv(View()) && Reaches(old(View()), View())
        invariant t in threads && (threads[t].Idle? || threads[t].Retrying?) && Attempt(threads[t]) == attempt
        invariant attempt <= 2 && scans == attempt
        decreases 3 - attempt
      {
        var cancelled: bool := *;
        if cancelled {
          return None, scans, began;
        }
        ghost var before := View();
        began := LookAt(t);
        ReachesTrans(old(View()), before, View());
        if threads[t].Returned? {
          return Some(threads[t].totals), scans, began;
        }
        before := View();
        var ok := Compute(t);
        ReachesTrans(old(View()), before, View());
        scans := scans + 1;
        if !ok {
          return None, scans, began;
        }
        before := View();
        began := SettleAt(t);
        ReachesTrans(old(View()), before, View());
        if !threads[t].Retrying? {
          return if threads[t].Returned? then Some(threads[t].totals) else None, scans, began;
        }
        attempt := attempt + 1;
        before := View();
        Others(t);
        ReachesTrans(old(View()), before, View());
      }
    }

    /** The read-locked section. */
    method LookAt(t: Thread) returns (ghost began: nat)
      requires Inv(View()) && t in threads && (threads[t].Idle? || threads[t].Retrying?)
      modifies this
      ensures Inv(View()) && View() == Apply(old(View()), Look(t)) && Reaches(old(View()), View()) && t in threads
      ensures threads[t].Returned? ==> past.bumped <= began <= past.version
      ensures threads[t].Returned? && began == past.version ==> threads[t].totals == Bytes(tree)
      ensures threads[t].Returned? || (threads[t].Reading? && threads[t].attempt == Attempt(old(threads[t])))
    {
      hide Inv, Bytes, Runs, Reaches;
      ReachesSelf(View());
      ReachesStep(View(), View(), Look(t));
      ApplyKeeps(View(), Look(t));
      began := AnswerBasis(View(), t, Look(t));
      if loaded {
        ReaderAnswers(View(), t, Look(t));
        threads := threads[t := Returned(totals)];
      } else {
        threads := threads[t := Reading(Attempt(threads[t]), Scan(generation, past.version, map[], Totals(0, 0)))];
      }
    }

    /** The write-locked section after a scan. */
    method SettleAt(t: Thread) returns (ghost began: nat)
      requires Inv(View()) && t in threads && threads[t].Reading? && Complete(View(), threads[t].scan)
      modifies this
      ensures Inv(View()) && View() == Apply(old(View()), Settle(t)) && Reaches(old(View()), View()) && t in threads
      ensures threads[t].Returned? ==> past.bumped <= began <= past.version
      ensures threads[t].Returned? && began == past.version ==> threads[t].totals == Bytes(tree)
      ensures threads[t].Returned? || threads[t].Refused? ||
              (threads[t].Retrying? && old(threads[t]).attempt < 2 && threads[t].attempt == old(threads[t]).attempt + 1)
    {
      hide Inv, Bytes, Runs, Reaches;
      var pc := threads[t];
      ReachesSelf(View());
      ReachesStep(View(), View(), Settle(t));
      ApplyKeeps(View(), Settle(t));
      began := AnswerBasis(View(), t, Settle(t));
      if Apply(View(), Settle(t)).threads[t].Returned? {
        ReaderAnswers(View(), t, Settle(t));
      }
      if generation != pc.scan.generation {
        if pc.attempt >= 2 {
          threads := threads[t := Refused];
        } else {
          threads := threads[t := Retrying(pc.attempt + 1)];
        }
        return;
      }
      if building == {} {
        if !loaded {
          totals, loaded, past := pc.scan.sum, true, past.(basis := pc.scan.version, begun := pc.scan.generation);
        }
        threads := threads[t := Returned(totals)];
      } else {
        threads := threads[t := Returned(pc.scan.sum)];
      }
    }

    /** refreshDiskUsageTotals: a scan that completes in the generation it began in with nobody building
        is stored, and is then exact if nothing has changed since; for an image writer, if no
        layer writer owes an invalidation and no pull has written since. A scan that fails stores nothing. */
    method RefreshDiskUsageTotals(t: Thread) returns (completed: bool)
      requires Inv(View()) && IdleAt(View(), t)
      modifies this
      ensures Inv(View()) && Reaches(old(View()), View()) && IdleAt(View(), t)
      ensures createMu == Some(t) <==> old(createMu) == Some(t)
      ensures completed && generation == old(generation) && building == {} ==>
                && loaded && past.basis == old(past.version)
                && (past.version == old(past.version) ==> totals == Bytes(tree))
                && (createMu == Some(t) && past.owing == {} && past.pullAt <= old(past.version) ==> totals == Bytes(tree))
    {
      hide Inv, Runs, Reaches, Bytes;
      ReachesSelf(View());
      ReachesStep(View(), View(), Refresh(t));
      Step(Refresh(t));
      ghost var before := View();
      completed := Compute(t);
      ReachesTrans(old(View()), before, View());
      if !completed {
        ReachesStep(old(View()), View(), Give(t));
        Step(Give(t));
        return;
      }
      ReachesStep(old(View()), View(), Settle(t));
      StoreTotals(t);
    }

    /** The write-locked section of refreshDiskUsageTotals. */
    method StoreTotals(t: Thread)
      requires Inv(View()) && t in threads && threads[t].Refreshing? && Complete(View(), threads[t].scan)
      modifies this
      ensures Inv(View()) && View() == Apply(old(View()), Settle(t)) && IdleAt(View(), t)
      ensures createMu == old(createMu)
      ensures Stores(old(View()), Settle(t)) ==>
                && loaded && past.basis == old(threads[t].scan.version)
                && (past.basis == past.version ==> totals == Bytes(tree))
                && (createMu == Some(t) && past.owing == {} && past.pullAt <= past.basis ==> totals == Bytes(tree))
    {
      hide Inv, Bytes;
      ApplyKeeps(View(), Settle(t));
      if Stores(View(), Settle(t)) {
        StoredRefresh(View(), t);
      }
      var scan := threads[t].scan;
      if generation == scan.generation && building == {} {
        totals, loaded, past := scan.sum, true, past.(basis := scan.version, begun := scan.generation);
      }
      threads := threads[t := Idle];
    }

    /** What finalizeImage, the deletions and the clean-up of a replaced tag do to the tree while they hold
        `createMu`: change it and refresh the totals. */
    method ChangeImages(t: Thread, changed: Tree) returns (completed: bool, ghost began: nat, ghost scanned: nat)
      requires Inv(View()) && IdleAt(View(), t) && createMu == Some(t)
      modifies this
      ensures Inv(View()) && Reaches(old(View()), View()) && IdleAt(View(), t) && createMu == Some(t)
      ensures began > old(past.version)
      ensures completed && generation == scanned && building == {} ==>
                && loaded && past.basis == began
                && (past.owing == {} && past.pullAt <= began ==> totals == Bytes(tree))
    {
      hide Inv, Runs, Reaches, Bytes;
      ReachesSelf(View());
      ReachesStep(View(), View(), ImageChange(t, changed));
      Step(ImageChange(t, changed));
      ghost var before := View();
      Others(t);
      ReachesTrans(old(View()), before, View());
      before, began, scanned := View(), past.version, generation;
      completed := RefreshDiskUsageTotals(t);
      ReachesTrans(old(View()), before, View());
    }
  }
}
