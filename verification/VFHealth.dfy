/** The VF health store of lib/devices/vf_health.go as a relation between states: what is
    in memory, what the file shows, and what survives a crash. Every write may fail
    before or after the rename that makes it visible. */
module VFHealth {
  import opened VFHealthFile

  /** `visible` is what a read returns; `durable` is what a crash may fall back to. */
  datatype Store = Store(
    records: Table,
    threshold: int,
    loadErr: bool,
    persistErr: bool,
    visible: File,
    durable: File)

  /** The file written for a table: version one and the sorted records. */
  ghost predicate Written(f: File, t: Table) {
    f.Json? && f.version == VERSION && f.records.Some? && IsListing(f.records.value, t)
  }

  /** persistLocked. A failure before the rename leaves the file alone; one after it
      leaves the new file visible but not durable. */
  ghost predicate Persists(s: Store, r: Store, renamed: bool, ok: bool) {
    && r == s.(persistErr := !ok, visible := r.visible, durable := if ok then r.visible else s.durable)
    && (ok ==> renamed)
    && (if renamed then Written(r.visible, s.records) else r.visible == s.visible)
  }

  /** Whether a record's tally meets the threshold without a quarantine. */
  predicate Overdue(r: Record, threshold: int) {
    r.quarantined.None? && |r.failures| >= threshold
  }

  /** requarantineLocked: overdue records gain a quarantine time, others are kept. */
  ghost predicate Requarantined(t: Table, threshold: int, u: Table) {
    && u.Keys == t.Keys
    && forall a :: a in t ==>
         if Overdue(t[a], threshold)
         then u[a].quarantined.Some? && u[a].quarantined.value != 0 && u[a] == t[a].(quarantined := u[a].quarantined)
         else u[a] == t[a]
  }

  /** loadLocked. The file may also be unreadable. */
  ghost predicate Loads(s: Store, r: Store, readable: bool, u: Table, renamed: bool, ok: bool) {
    var parsed := if readable then Parse(s.visible) else None;
    if parsed.None? then
      !ok && r == s.(records := map[], loadErr := true, persistErr := false)
    else
      && Requarantined(parsed.value, s.threshold, u)
      && var mid := s.(records := u, loadErr := false, persistErr := false);
      if u == parsed.value then ok && r == mid else Persists(mid, r, renamed, ok)
  }

  datatype Report = Report(address: string, instance: string, assignedAt: string)

  datatype Outcome = Failed | Unchanged | Recorded | NowQuarantined

  function Failures(t: Table, a: string): seq<Failure> {
    if a in t then t[a].failures else []
  }

  /** The index of the failure of an assignment, or the length when there is none. */
  function FindAssignment(fs: seq<Failure>, instance: string, assignedAt: string): (k: nat)
    ensures k <= |fs|
    ensures k < |fs| ==> SameAssignment(fs[k], instance, assignedAt)
    ensures forall i :: 0 <= i < k ==> !SameAssignment(fs[i], instance, assignedAt)
  {
    if fs == [] || SameAssignment(fs[0], instance, assignedAt) then 0
    else 1 + FindAssignment(fs[1..], instance, assignedAt)
  }

  predicate IsQuarantined(t: Table, a: string) {
    a in t && t[a].quarantined.Some?
  }

  /** A report that changes nothing: the VF is quarantined, or the assignment is known. */
  predicate Settled(t: Table, rep: Report) {
    || IsQuarantined(t, rep.address)
    || FindAssignment(Failures(t, rep.address), rep.instance, rep.assignedAt) < |Failures(t, rep.address)|
  }

  /** The record after one more failure, quarantined when the tally reaches the threshold. */
  function Tallied(t: Table, threshold: int, rep: Report, now: int): Record {
    var fs := Failures(t, rep.address) + [Failure(rep.instance, rep.assignedAt, now)];
    Record(rep.address, fs, if |fs| >= threshold then Some(now) else None)
  }

  /** The state after a changed table was written: a failure before the rename is rolled
      back in memory, a later one is not. */
  ghost predicate Commits(s: Store, t: Table, r: Store, renamed: bool, ok: bool) {
    && Persists(s.(records := t), r.(records := t), renamed, ok)
    && r.records == if ok || renamed then t else s.records
  }

  /** reportFailure once the store is loaded. */
  ghost predicate ReportsFailure(s: Store, rep: Report, now: int, r: Store, renamed: bool, o: Outcome) {
    if !ValidAddress(rep.address) then r == s && o.Failed?
    else if Settled(s.records, rep) then r == s && o.Unchanged?
    else if s.persistErr then r == s && o.Failed?
    else
      var rec := Tallied(s.records, s.threshold, rep, now);
      && Commits(s, s.records[rep.address := rec], r, renamed, !o.Failed?)
      && (!o.Failed? ==> o == if rec.quarantined.Some? then NowQuarantined else Recorded)
  }

  /** The table after a success: the matched failure and all older ones are cleared, and a
      record left without failures goes away, quarantine included. */
  function Cleared(t: Table, a: string, match_: nat): Table
    requires a in t && match_ < |t[a].failures|
  {
    var rest := t[a].failures[match_ + 1..];
    if rest == [] then t - {a} else t[a := t[a].(failures := rest)]
  }

  /** reportSuccess once the store is loaded. */
  ghost predicate ReportsSuccess(s: Store, rep: Report, r: Store, renamed: bool, ok: bool) {
    var fs := Failures(s.records, rep.address);
    var k := FindAssignment(fs, rep.instance, rep.assignedAt);
    if !ValidAddress(rep.address) then r == s && !ok
    else if k == |fs| then r == s && ok
    else if s.persistErr then r == s && !ok
    else Commits(s, Cleared(s.records, rep.address, k), r, renamed, ok)
  }

  /** A success that rescinds: it matches the newest failure recorded for the VF. */
  predicate MatchesNewest(t: Table, rep: Report) {
    var fs := Failures(t, rep.address);
    fs != [] && FindAssignment(fs, rep.instance, rep.assignedAt) == |fs| - 1
  }

  /* ---- what every step keeps ---- */

  ghost predicate NulFreeTable(t: Table) {
    forall a :: a in t ==> forall i :: 0 <= i < |t[a].failures| ==> NulFree(t[a].failures[i].instance)
  }

  /** A table that load accepts: valid records under their own addresses. */
  ghost predicate ValidTable(t: Table) {
    forall a :: a in t ==> ValidRecord(t[a]) && t[a].address == a
  }

  ghost predicate NoneOverdue(t: Table, threshold: int) {
    forall a :: a in t ==> !Overdue(t[a], threshold)
  }

  ghost predicate GoodTable(t: Table, threshold: int) {
    ValidTable(t) && NoneOverdue(t, threshold) && NulFreeTable(t)
  }

  ghost predicate NulFreeFile(f: File) {
    Parse(f).Some? ==> NulFreeTable(Parse(f).value)
  }

  /** The quarantined VFs of a file; a file that does not load has none. */
  ghost function FileQuarantine(f: File): set<string> {
    if Parse(f).Some? then Quarantined(Parse(f).value) else {}
  }

  /** While loaded, memory is a good table that has every quarantine of the visible file,
      and is exactly that file unless a write error is latched. */
  ghost predicate Inv(s: Store) {
    && NulFreeFile(s.visible) && NulFreeFile(s.durable)
    && (!s.loadErr ==>
          && GoodTable(s.records, s.threshold)
          && Parse(s.visible).Some?
          && FileQuarantine(s.visible) <= Quarantined(s.records)
          && (!s.persistErr ==> Parse(s.visible) == Some(s.records)))
  }

  /** Every written file passes validation and loads back as the table it was written
      from. */
  lemma WrittenLoadsBack(f: File, t: Table)
    requires ValidTable(t) && Written(f, t)
    ensures Parse(f) == Some(t)
  {
    ListingTable(f.records.value, t);
  }

  /** Under the threshold it was written with, a load changes nothing and does not write. */
  lemma ReloadUnchanged(s: Store, t: Table, r: Store, u: Table, renamed: bool, ok: bool)
    requires GoodTable(t, s.threshold) && Written(s.visible, t)
    requires Loads(s, r, true, u, renamed, ok)
    ensures ok && r == s.(records := t, loadErr := false, persistErr := false)
  {
    WrittenLoadsBack(s.visible, t);
    assert forall a :: a in t ==> u[a] == t[a];
    assert u == t;
  }

  lemma ParsedIsValid(f: File)
    requires Parse(f).Some?
    ensures ValidTable(Parse(f).value)
  {
    if f.Json? {
      var rs := f.records.value;
      TableEntries(rs);
      forall a | a in TableOf(rs) ensures ValidRecord(TableOf(rs)[a]) && TableOf(rs)[a].address == a {
        var i :| 0 <= i < |rs| && rs[i].address == a;
        assert TableOf(rs)[rs[i].address] == rs[i];
      }
    }
  }

  lemma PersistInv(s: Store, r: Store, renamed: bool, ok: bool)
    requires Inv(s) && !s.loadErr && Persists(s, r, renamed, ok)
    ensures Inv(r)
  {
    if renamed {
      WrittenLoadsBack(r.visible, s.records);
    }
  }

  lemma RequarantineGood(t: Table, threshold: int, u: Table)
    requires ValidTable(t) && NulFreeTable(t) && Requarantined(t, threshold, u)
    ensures GoodTable(u, threshold) && Quarantined(t) <= Quarantined(u)
  {
    forall a | a in u ensures ValidRecord(u[a]) && u[a].address == a {
      assert u[a].failures == t[a].failures && u[a].address == t[a].address;
    }
  }

  lemma LoadInv(s: Store, r: Store, readable: bool, u: Table, renamed: bool, ok: bool)
    requires NulFreeFile(s.visible) && NulFreeFile(s.durable) && Loads(s, r, readable, u, renamed, ok)
    ensures Inv(r)
  {
    if readable && Parse(s.visible).Some? {
      var t := Parse(s.visible).value;
      ParsedIsValid(s.visible);
      RequarantineGood(t, s.threshold, u);
      hide GoodTable, Parse, NulFreeTable, ValidTable;
      if u != t {
        var mid := s.(records := u, loadErr := false, persistErr := true);
        assert Inv(mid);
        PersistInv(mid, r, renamed, ok);
      }
    }
  }

  lemma TalliedValid(t: Table, threshold: int, rep: Report, now: int)
    requires ValidTable(t) && NulFreeTable(t) && ValidAddress(rep.address) && !Settled(t, rep)
    requires NulFree(rep.instance) && now != 0
    ensures ValidRecord(Tallied(t, threshold, rep, now))
  {
    var old_, rec := Failures(t, rep.address), Tallied(t, threshold, rep, now);
    var fs, f := rec.failures, Failure(rep.instance, rep.assignedAt, now);
    forall i | 0 <= i < |old_| ensures AssignmentKey(old_[i]) != AssignmentKey(f) {
      assert NulFree(t[rep.address].failures[i].instance);
      KeyNamesAssignment(old_[i], f);
    }
    forall i, j | 0 <= i < j < |fs| ensures AssignmentKey(fs[i]) != AssignmentKey(fs[j]) {
      assert fs[i] == old_[i];
    }
  }

  lemma TalliedGood(t: Table, threshold: int, rep: Report, now: int)
    requires GoodTable(t, threshold) && ValidAddress(rep.address) && !Settled(t, rep)
    requires NulFree(rep.instance) && now != 0
    ensures GoodTable(t[rep.address := Tallied(t, threshold, rep, now)], threshold)
  {
    TalliedValid(t, threshold, rep, now);
    hide ValidRecord;
    var rec := Tallied(t, threshold, rep, now);
    forall i | 0 <= i < |rec.failures| ensures NulFree(rec.failures[i].instance) {
      assert i < |Failures(t, rep.address)| ==> rec.failures[i] == t[rep.address].failures[i];
    }
  }

  lemma ClearedGood(t: Table, threshold: int, a: string, k: nat)
    requires GoodTable(t, threshold) && a in t && k < |t[a].failures|
    ensures GoodTable(Cleared(t, a, k), threshold)
  {
    var rest := t[a].failures[k + 1..];
    if rest != [] {
      var rec := t[a].(failures := rest);
      assert ValidRecord(t[a]);
      assert forall i :: 0 <= i < |rest| ==> rest[i] == t[a].failures[k + 1 + i];
      assert ValidRecord(rec);
      hide ValidRecord;
    }
  }

  lemma CommitInv(s: Store, t: Table, r: Store, renamed: bool, ok: bool)
    requires Inv(s) && !s.loadErr && !s.persistErr && GoodTable(t, s.threshold)
    requires Commits(s, t, r, renamed, ok)
    ensures Inv(r)
  {
    if renamed {
      WrittenLoadsBack(r.visible, t);
    }
  }

  datatype Event =
    | Init(threshold: int, readable: bool, table: Table, renamed: bool, ok: bool)
    | Reload(readable: bool, table: Table, renamed: bool, ok: bool)
    | Retry(renamed: bool, ok: bool)
    | FailureReport(rep: Report, now: int, renamed: bool, outcome: Outcome)
    | SuccessReport(rep: Report, renamed: bool, ok: bool)
    | Crash(keepsVisible: bool)

  /** One section under the store's lock, or a crash. After a crash nothing is loaded and
      the file is either the last one made visible or the last one made durable. */
  ghost predicate Next(s: Store, e: Event, r: Store) {
    match e
    case Init(threshold, readable, u, renamed, ok) => Loads(s.(threshold := threshold), r, readable, u, renamed, ok)
    case Reload(readable, u, renamed, ok) => s.loadErr && Loads(s, r, readable, u, renamed, ok)
    case Retry(renamed, ok) => !s.loadErr && s.persistErr && Persists(s, r, renamed, ok)
    case FailureReport(rep, now, renamed, o) =>
      !s.loadErr && now != 0 && NulFree(rep.instance) && ReportsFailure(s, rep, now, r, renamed, o)
    case SuccessReport(rep, renamed, ok) => !s.loadErr && ReportsSuccess(s, rep, r, renamed, ok)
    case Crash(keepsVisible) =>
      var f := if keepsVisible then s.visible else s.durable;
      r == Store(map[], s.threshold, true, false, f, f)
  }

  lemma NextInv(s: Store, e: Event, r: Store)
    requires Inv(s) && Next(s, e, r)
    ensures Inv(r)
  {
    hide GoodTable, NulFreeFile, Parse, FileQuarantine;
    match e
    case Init(threshold, readable, u, renamed, ok) => LoadInv(s.(threshold := threshold), r, readable, u, renamed, ok);
    case Reload(readable, u, renamed, ok) => LoadInv(s, r, readable, u, renamed, ok);
    case Retry(renamed, ok) => PersistInv(s, r, renamed, ok);
    case FailureReport(rep, now, renamed, o) =>
      if ValidAddress(rep.address) && !Settled(s.records, rep) && !s.persistErr {
        var rec := Tallied(s.records, s.threshold, rep, now);
        TalliedGood(s.records, s.threshold, rep, now);
        CommitInv(s, s.records[rep.address := rec], r, renamed, !o.Failed?);
      }
    case SuccessReport(rep, renamed, ok) =>
      var fs := Failures(s.records, rep.address);
      var k := FindAssignment(fs, rep.instance, rep.assignedAt);
      if ValidAddress(rep.address) && k < |fs| && !s.persistErr {
        ClearedGood(s.records, s.threshold, rep.address, k);
        CommitInv(s, Cleared(s.records, rep.address, k), r, renamed, ok);
      }
    case Crash(_) =>
  }

  /* ---- what a successful read returns ---- */

  /** checkedAddresses answers only when nothing failed; it then returns the memory's set. */
  predicate Available(s: Store) {
    !s.loadErr && !s.persistErr
  }

  /** A successful read returns exactly the quarantine of the visible file. */
  lemma CheckedIsVisible(s: Store)
    requires Inv(s) && Available(s)
    ensures Quarantined(s.records) == FileQuarantine(s.visible)
  {
  }

  /** Unless a write error is latched, a crash would bring back the quarantine that is visible now. */
  ghost predicate Synced(s: Store) {
    (!s.persistErr ==> FileQuarantine(s.visible) == FileQuarantine(s.durable)) && (s.loadErr ==> !s.persistErr)
  }

  /** Whether an initialisation finds overdue records, and so writes the file itself. */
  ghost predicate Rewrites(s: Store, e: Event) {
    e.Init? && e.readable && Parse(s.visible).Some? && e.table != Parse(s.visible).value
  }

  /** Initialisation is the one step that can drop a latched error with the rename still
      unsynced. It is careful when a crash would bring back the quarantine it reads, or it writes
      the file itself. */
  ghost predicate Careful(s: Store, e: Event) {
    e.Init? ==> FileQuarantine(s.visible) == FileQuarantine(s.durable) || Rewrites(s, e)
  }

  /** The condition is exact: every careful step keeps the store synced, and no other initialisation does. */
  lemma NextSynced(s: Store, e: Event, r: Store)
    requires Synced(s) && Next(s, e, r)
    ensures Synced(r) <==> Careful(s, e)
  {
    hide Parse, Written, Requarantined, FileQuarantine;
  }

  /** Events lead from one state to another. */
  ghost predicate Reaches(s: Store, es: seq<Event>, path: seq<Store>, careful: bool) {
    && |path| == |es| + 1 && path[0] == s
    && forall i :: 0 <= i < |es| ==> Next(path[i], es[i], path[i + 1]) && (careful ==> Careful(path[i], es[i]))
  }

  lemma {:induction false} RunInv(s: Store, es: seq<Event>, path: seq<Store>, careful: bool, n: nat)
    requires Inv(s) && Reaches(s, es, path, careful) && n <= |es|
    ensures Inv(path[n])
    ensures careful && Synced(s) ==> Synced(path[n])
    decreases n
  {
    if n > 0 {
      RunInv(s, es, path, careful, n - 1);
      assert Next(path[n - 1], es[n - 1], path[n]);
      hide Next, Inv, Synced;
      NextInv(path[n - 1], es[n - 1], path[n]);
      if careful && Synced(s) {
        NextSynced(path[n - 1], es[n - 1], path[n]);
      }
    }
  }

  /** Fail closed: along every careful run a successful read returns exactly the durably
      stored quarantine set. */
  lemma FailsClosed(s: Store, es: seq<Event>, path: seq<Store>, n: nat)
    requires Inv(s) && Synced(s) && Reaches(s, es, path, true) && n <= |es|
    requires Available(path[n])
    ensures Quarantined(path[n].records) == FileQuarantine(path[n].durable) == FileQuarantine(path[n].visible)
  {
    RunInv(s, es, path, true, n);
  }

  /** After any initialisation, whatever it read and however its writes went, a successful read
      agrees with the durable file if and only if the visible file did before, or the initialisation
      wrote the file itself. */
  lemma InitReads(s: Store, e: Event, r: Store)
    requires Inv(s) && e.Init? && Next(s, e, r) && Available(r)
    ensures Quarantined(r.records) == FileQuarantine(r.durable) <==>
            FileQuarantine(s.visible) == FileQuarantine(s.durable) || Rewrites(s, e)
  {
    NextInv(s, e, r);
    CheckedIsVisible(r);
    hide Inv, Written, Requarantined, FileQuarantine;
  }

  /* ---- a bad read ---- */

  /** The one record of a VF quarantined by its first failure. */
  function OneRecord(a: string, instance: string, now: int): Record {
    Record(a, [Failure(instance, "", now)], Some(now))
  }

  /** The file that lists it. */
  function OneFile(a: string, instance: string, now: int): File {
    Json(VERSION, Some([OneRecord(a, instance, now)]))
  }

  lemma OneFileIsWritten(a: string, instance: string, now: int)
    requires ValidAddress(a) && now != 0
    ensures Written(OneFile(a, instance, now), map[a := OneRecord(a, instance, now)])
    ensures Parse(OneFile(a, instance, now)) == Some(map[a := OneRecord(a, instance, now)])
  {
    var rs, t := [OneRecord(a, instance, now)], map[a := OneRecord(a, instance, now)];
    assert rs[0].address == a;
    assert Listed(rs, a);
    assert IsListing(rs, t);
    assert ValidTable(t);
    WrittenLoadsBack(OneFile(a, instance, now), t);
  }

  /** A run from an empty directory to a read that a crash can take back: the store is initialised
      with a threshold of one, a failure is reported whose rename succeeds and whose sync does not,
      and the store is initialised again. */
  lemma BadReadIsReachable(a: string, instance: string, now: int) returns (es: seq<Event>, path: seq<Store>)
    requires ValidAddress(a) && NulFree(instance) && now != 0
    ensures |es| == 3 && path != [] && Reaches(path[0], es, path, false)
    ensures path[0] == Store(map[], 0, true, false, Absent, Absent)
    ensures Available(path[3]) && a in Quarantined(path[3].records) && a !in FileQuarantine(path[3].durable)
  {
    var f, t := OneFile(a, instance, now), map[a := OneRecord(a, instance, now)];
    OneFileIsWritten(a, instance, now);
    var rep := Report(a, instance, "");
    var s0 := Store(map[], 0, true, false, Absent, Absent);
    var s1 := Store(map[], 1, false, false, Absent, Absent);
    var s2 := Store(t, 1, false, true, f, Absent);
    var s3 := Store(t, 1, false, false, f, Absent);
    es := [Init(1, true, map[], false, true), FailureReport(rep, now, true, Outcome.Failed), Init(1, true, t, false, true)];
    path := [s0, s1, s2, s3];
    assert Next(s0, es[0], s1);
    ReportRuns(s1, rep, now, s2, f, t);
    assert Next(s2, es[2], s3) by { assert Requarantined(t, 1, t); }
    assert forall i :: 0 <= i < 3 ==> Next(path[i], es[i], path[i + 1]);
  }

  lemma ReportRuns(s: Store, rep: Report, now: int, r: Store, f: File, t: Table)
    requires ValidAddress(rep.address) && NulFree(rep.instance) && now != 0 && rep.assignedAt == ""
    requires s == Store(map[], 1, false, false, Absent, Absent) && r == Store(t, 1, false, true, f, Absent)
    requires t == map[rep.address := OneRecord(rep.address, rep.instance, now)] && Written(f, t)
    ensures Next(s, FailureReport(rep, now, true, Outcome.Failed), r)
  {
    hide Written;
    assert Tallied(s.records, 1, rep, now) == OneRecord(rep.address, rep.instance, now);
    assert s.records[rep.address := Tallied(s.records, 1, rep, now)] == t;
    assert Commits(s, t, r, true, false);
  }

  /* ---- sticky quarantine ---- */

  /** A VF is held in every place that could bring it back. */
  ghost predicate Stuck(s: Store, a: string) {
    && a in FileQuarantine(s.visible) && a in FileQuarantine(s.durable)
    && (!s.loadErr ==> a in Quarantined(s.records))
  }

  /** A report that quarantines a VF has made the quarantine durable. */
  lemma QuarantineSticks(s: Store, e: Event, r: Store)
    requires Inv(s) && Next(s, e, r) && e.FailureReport? && e.outcome.NowQuarantined?
    ensures Stuck(r, e.rep.address)
  {
    var t := s.records[e.rep.address := Tallied(s.records, s.threshold, e.rep, e.now)];
    TalliedGood(s.records, s.threshold, e.rep, e.now);
    WrittenLoadsBack(r.visible, t);
  }

  predicate Rescinds(s: Store, e: Event, a: string) {
    e.SuccessReport? && e.rep.address == a && !s.loadErr && MatchesNewest(s.records, e.rep)
  }

  lemma PersistStuck(s: Store, r: Store, renamed: bool, ok: bool, a: string)
    requires ValidTable(s.records) && Persists(s, r, renamed, ok)
    requires a in FileQuarantine(s.visible) && a in FileQuarantine(s.durable) && a in Quarantined(s.records)
    ensures a in FileQuarantine(r.visible) && a in FileQuarantine(r.durable)
  {
    if renamed {
      WrittenLoadsBack(r.visible, s.records);
    }
  }

  lemma LoadStuck(s: Store, r: Store, readable: bool, u: Table, renamed: bool, ok: bool, a: string)
    requires a in FileQuarantine(s.visible) && a in FileQuarantine(s.durable) && NulFreeFile(s.visible)
    requires Loads(s, r, readable, u, renamed, ok)
    ensures Stuck(r, a)
  {
    if readable {
      var t := Parse(s.visible).value;
      ParsedIsValid(s.visible);
      RequarantineGood(t, s.threshold, u);
      hide Parse;
      if u != t {
        PersistStuck(s.(records := u, loadErr := false, persistErr := false), r, renamed, ok, a);
      }
    }
  }

  /** No step but a success matching the VF's newest failure lifts its quarantine. */
  lemma NextStuck(s: Store, e: Event, r: Store, a: string)
    requires Inv(s) && Next(s, e, r) && Stuck(s, a) && !Rescinds(s, e, a)
    ensures Stuck(r, a)
  {
    hide NulFreeFile, Parse, FileQuarantine, Requarantined, Written, ValidRecord, NulFreeTable, NoneOverdue;
    match e
    case Init(threshold, readable, u, renamed, ok) => LoadStuck(s.(threshold := threshold), r, readable, u, renamed, ok, a);
    case Reload(readable, u, renamed, ok) => LoadStuck(s, r, readable, u, renamed, ok, a);
    case Retry(renamed, ok) => PersistStuck(s, r, renamed, ok, a);
    case FailureReport(rep, now, renamed, o) =>
      if ValidAddress(rep.address) && !Settled(s.records, rep) && !s.persistErr {
        var t := s.records[rep.address := Tallied(s.records, s.threshold, rep, now)];
        TalliedGood(s.records, s.threshold, rep, now);
        PersistStuck(s.(records := t), r.(records := t), renamed, !o.Failed?, a);
      }
    case SuccessReport(rep, renamed, ok) =>
      var fs := Failures(s.records, rep.address);
      var k := FindAssignment(fs, rep.instance, rep.assignedAt);
      if ValidAddress(rep.address) && k < |fs| && !s.persistErr {
        var t := Cleared(s.records, rep.address, k);
        ClearedGood(s.records, s.threshold, rep.address, k);
        PersistStuck(s.(records := t), r.(records := t), renamed, ok, a);
      }
    case Crash(_) =>
  }

  /** Sticky quarantine over whole runs, reloads, crashes and threshold changes. */
  lemma {:induction false} StaysQuarantined(s: Store, es: seq<Event>, path: seq<Store>, a: string, n: nat)
    requires Inv(s) && Stuck(s, a) && Reaches(s, es, path, false) && n <= |es|
    requires forall i :: 0 <= i < n ==> !Rescinds(path[i], es[i], a)
    ensures Stuck(path[n], a)
    decreases n
  {
    if n > 0 {
      StaysQuarantined(s, es, path, a, n - 1);
      RunInv(s, es, path, false, n - 1);
      assert Next(path[n - 1], es[n - 1], path[n]);
      hide Next, Inv, Stuck;
      NextStuck(path[n - 1], es[n - 1], path[n], a);
    }
  }
}
