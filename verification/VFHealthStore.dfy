/** The mutable VF health store: the methods of lib/devices/vf_health.go over their own
    fields and the file, proved against the relations of module VFHealth. */
module VFHealthStore {
  import opened VFHealthFile
  import opened VFHealth

  /** Steps of writeStateLocked before the rename: marshal, make the directory, sync its
      parent, create the temporary file, write it, sync it, close it. */
  const STEPS_BEFORE_RENAME := 7

  class HealthStore {
    var records: Table
    var threshold: int
    var loadErr: bool
    var persistErr: bool
    var visible: File
    var durable: File

    function View(): Store
      reads this
    {
      Store(records, threshold, loadErr, persistErr, visible, durable)
    }

    /** A fresh process before initialisation, on whatever file is there. */
    constructor (onDisk: File, limit: int)
      ensures View() == Store(map[], limit, true, false, onDisk, onDisk)
    {
      records, threshold, loadErr, persistErr := map[], limit, true, false;
      visible, durable := onDisk, onDisk;
    }

    method WriteStateLocked() returns (renamed: bool, ok: bool)
      requires ValidTable(records)
      modifies this`visible, this`durable
      ensures Persists(old(View()), View().(persistErr := !ok), renamed, ok)
    {
      var listing := SortedRecords(records);
      for step := 0 to STEPS_BEFORE_RENAME
        invariant visible == old(visible) && durable == old(durable)
      {
        var fails: bool := *;
        if fails {
          return false, false;
        }
      }
      var renameFails: bool := *;
      if renameFails {
        return false, false;
      }
      visible := Json(VERSION, Some(listing));
      var syncFails: bool := *;
      if syncFails {
        return true, false;
      }
      durable := visible;
      return true, true;
    }

    /** A failure is latched until a later write succeeds. */
    method PersistLocked() returns (renamed: bool, ok: bool)
      requires ValidTable(records)
      modifies this`visible, this`durable, this`persistErr
      ensures Persists(old(View()), View(), renamed, ok)
    {
      renamed, ok := WriteStateLocked();
      persistErr := !ok;
    }

    /** The loop of requarantineLocked; memory is not rolled back when the write fails. */
    method MarkOverdue(now: int) returns (changed: bool)
      requires now != 0
      modifies this`records
      ensures Requarantined(old(records), threshold, records)
      ensures changed <==> records != old(records)
    {
      changed := false;
      var todo := records.Keys;
      while todo != {}
        invariant todo <= records.Keys == old(records).Keys
        invariant forall a :: a in todo ==> records[a] == old(records)[a]
        invariant forall a :: a in records && a !in todo ==>
          records[a] == if Overdue(old(records)[a], threshold) then old(records)[a].(quarantined := Some(now)) else old(records)[a]
        invariant changed <==> exists a :: a in records && a !in todo && Overdue(old(records)[a], threshold)
        decreases todo
      {
        var a :| a in todo;
        todo := todo - {a};
        if Overdue(records[a], threshold) {
          records := records[a := records[a].(quarantined := Some(now))];
          changed := true;
        }
      }
      if changed {
        ghost var a :| a in records && Overdue(old(records)[a], threshold);
        assert records[a] != old(records)[a];
      } else {
        assert records == old(records);
      }
    }

    method LoadLocked(now: int) returns (ok: bool, ghost readable: bool, ghost table: Table, ghost renamed: bool)
      requires now != 0
      modifies this`records, this`loadErr, this`persistErr, this`visible, this`durable
      ensures Loads(old(View()), View(), readable, table, renamed, ok)
    {
      records, loadErr, persistErr, table, renamed := map[], false, false, map[], false;
      var unreadable: bool := *;
      readable := !unreadable;
      if unreadable {
        loadErr := true;
        return false, readable, table, renamed;
      }
      var parsed := LoadFile(visible);
      if parsed.None? {
        loadErr := true;
        return false, readable, table, renamed;
      }
      ParsedIsValid(visible);
      records := parsed.value;
      var changed := MarkOverdue(now);
      table := records;
      if !changed {
        return true, readable, table, renamed;
      }
      RequarantineValid(parsed.value, threshold, records);
      ghost var mid := View();
      var wasRenamed;
      wasRenamed, ok := PersistLocked();
      renamed := wasRenamed;
    }

    lemma RequarantineValid(t: Table, limit: int, u: Table)
      requires ValidTable(t) && Requarantined(t, limit, u)
      ensures ValidTable(u)
    {
      forall a | a in u ensures ValidRecord(u[a]) && u[a].address == a {
        assert u[a].failures == t[a].failures && u[a].address == t[a].address;
      }
    }

    /** InitVFHealth: the step `e` of the store, with what was read and how the write went. When
        reads succeed afterwards they agree with the durable file exactly if the visible file did
        before, or this call rewrote the file. */
    method Init(limit: int, now: int) returns (ok: bool, ghost e: Event)
      requires now != 0 && Inv(View())
      modifies this
      ensures e.Init? && e.threshold == limit && e.ok == ok && Next(old(View()), e, View())
      ensures Inv(View()) && threshold == limit
      ensures ok ==> Available(View())
      ensures Available(View()) ==>
        (Quarantined(records) == FileQuarantine(durable) <==>
         FileQuarantine(old(visible)) == FileQuarantine(old(durable)) || Rewrites(old(View()), e))
    {
      threshold := limit;
      ghost var s := View();
      ghost var readable, table, renamed;
      ok, readable, table, renamed := LoadLocked(now);
      LoadInv(s, View(), readable, table, renamed, ok);
      e := Event.Init(limit, readable, table, renamed, ok);
      if Available(View()) {
        InitReads(old(View()), e, View());
      }
    }

    method EnsureLoadedLocked(now: int) returns (ok: bool)
      requires now != 0 && Inv(View())
      modifies this`records, this`loadErr, this`persistErr, this`visible, this`durable
      ensures Inv(View())
      ensures !old(loadErr) ==> ok && View() == old(View())
      ensures ok ==> !loadErr
      ensures !ok ==> loadErr || persistErr
      ensures old(loadErr) ==> exists readable, table, renamed :: Loads(old(View()), View(), readable, table, renamed, ok)
    {
      if !loadErr {
        return true;
      }
      ghost var s := View();
      ghost var readable, table, renamed;
      ok, readable, table, renamed := LoadLocked(now);
      LoadInv(s, View(), readable, table, renamed, ok);
    }

    method RetryPersistLocked() returns (ok: bool)
      requires Inv(View()) && !loadErr
      modifies this`visible, this`durable, this`persistErr
      ensures Inv(View()) && persistErr == !ok
      ensures !old(persistErr) ==> ok && View() == old(View())
      ensures old(persistErr) ==> exists renamed :: Persists(old(View()), View(), renamed, ok)
    {
      if !persistErr {
        return true;
      }
      ghost var s := View();
      var renamed;
      renamed, ok := PersistLocked();
      PersistInv(s, View(), renamed, ok);
    }

    /** The quarantined addresses, or nothing while the store is unavailable. A store that
        was available is left as it was. */
    method CheckedAddresses(now: int) returns (addresses: Option<set<string>>)
      requires now != 0 && Inv(View())
      modifies this`records, this`loadErr, this`persistErr, this`visible, this`durable
      ensures Inv(View())
      ensures addresses.Some? <==> Available(View())
      ensures addresses.Some? ==> addresses.value == Quarantined(records) == FileQuarantine(visible)
      ensures old(Available(View())) ==> View() == old(View())
    {
      var ok := EnsureLoadedLocked(now);
      if !ok {
        return None;
      }
      ok := RetryPersistLocked();
      if !ok {
        return None;
      }
      CheckedIsVisible(View());
      return Some(Quarantined(records));
    }

    /** Writes a changed table, rolling memory back when the rename was not reached. */
    method CommitLocked(table: Table) returns (renamed: bool, ok: bool)
      requires Inv(View()) && !loadErr && !persistErr && GoodTable(table, threshold)
      modifies this`records, this`persistErr, this`visible, this`durable
      ensures Commits(old(View()), table, View(), renamed, ok) && Inv(View())
    {
      ghost var s := View();
      var previous := records;
      records := table;
      renamed, ok := PersistLocked();
      if !ok && !renamed {
        records := previous;
      }
      CommitInv(s, table, View(), renamed, ok);
    }

    method IndexOfAssignment(fs: seq<Failure>, instance: string, assignedAt: string) returns (k: nat)
      ensures k == FindAssignment(fs, instance, assignedAt)
    {
      k := 0;
      while k < |fs| && !SameAssignment(fs[k], instance, assignedAt)
        invariant 0 <= k <= |fs|
        invariant forall j :: 0 <= j < k ==> !SameAssignment(fs[j], instance, assignedAt)
      {
        k := k + 1;
      }
      assert k == FindAssignment(fs, instance, assignedAt);
    }

    /** reportFailure. `mid` is the state once loading was ensured. */
    method ReportFailure(rep: Report, now: int)
      returns (o: Outcome, failures: nat, ghost loaded: bool, ghost mid: Store, ghost renamed: bool)
      requires now != 0 && Inv(View()) && NulFree(rep.instance)
      modifies this`records, this`loadErr, this`persistErr, this`visible, this`durable
      ensures Inv(View())
      ensures !old(loadErr) ==> loaded && mid == old(View())
      ensures !loaded ==> o.Failed? && View() == mid && (mid.loadErr || mid.persistErr)
      ensures loaded ==> !mid.loadErr && ReportsFailure(mid, rep, now, View(), renamed, o)
      ensures !o.Failed? ==> failures == |Failures(records, rep.address)|
      ensures o.NowQuarantined? ==> Stuck(View(), rep.address)
    {
      renamed, failures := false, 0;
      var ok := EnsureLoadedLocked(now);
      mid, loaded := View(), ok;
      if !ok || !ValidAddress(rep.address) {
        return Failed, 0, loaded, mid, renamed;
      }
      var previous := Failures(records, rep.address);
      if IsQuarantined(records, rep.address) {
        return Unchanged, |previous|, loaded, mid, renamed;
      }
      var k := IndexOfAssignment(previous, rep.instance, rep.assignedAt);
      if k < |previous| {
        return Unchanged, |previous|, loaded, mid, renamed;
      }
      if persistErr {
        return Failed, 0, loaded, mid, renamed;
      }
      var record := Tallied(records, threshold, rep, now);
      TalliedGood(records, threshold, rep, now);
      hide Inv, GoodTable, Persists, Stuck;
      var wasRenamed;
      wasRenamed, ok := CommitLocked(records[rep.address := record]);
      renamed := wasRenamed;
      o := if !ok then Failed else if record.quarantined.Some? then NowQuarantined else Recorded;
      failures := if ok then |record.failures| else 0;
      if o.NowQuarantined? {
        QuarantineSticks(mid, FailureReport(rep, now, renamed, o), View());
      }
    }

    /** reportSuccess: clears the matched failure and all older ones. */
    method ReportSuccess(rep: Report, now: int)
      returns (ok: bool, cleared: nat, rescinded: bool, ghost loaded: bool, ghost mid: Store, ghost renamed: bool)
      requires now != 0 && Inv(View())
      modifies this`records, this`loadErr, this`persistErr, this`visible, this`durable
      ensures Inv(View())
      ensures !old(loadErr) ==> loaded && mid == old(View())
      ensures !loaded ==> !ok && View() == mid && (mid.loadErr || mid.persistErr)
      ensures loaded ==> !mid.loadErr && ReportsSuccess(mid, rep, View(), renamed, ok)
      ensures ok ==> cleared == |Failures(mid.records, rep.address)| - |Failures(records, rep.address)|
      ensures rescinded ==> MatchesNewest(mid.records, rep)
      ensures ok && IsQuarantined(mid.records, rep.address) ==> (rescinded <==> !IsQuarantined(records, rep.address))
    {
      renamed, cleared, rescinded := false, 0, false;
      ok := EnsureLoadedLocked(now);
      mid, loaded := View(), ok;
      if !ok || !ValidAddress(rep.address) {
        return false, 0, false, loaded, mid, renamed;
      }
      var previous := Failures(records, rep.address);
      var k := IndexOfAssignment(previous, rep.instance, rep.assignedAt);
      if k == |previous| {
        return true, 0, false, loaded, mid, renamed;
      }
      if persistErr {
        return false, 0, false, loaded, mid, renamed;
      }
      var before := records;
      ClearedGood(records, threshold, rep.address, k);
      hide Inv, GoodTable, Persists;
      var wasRenamed;
      wasRenamed, ok := CommitLocked(Cleared(records, rep.address, k));
      renamed := wasRenamed;
      if ok {
        cleared := k + 1;
        rescinded := before[rep.address].quarantined.Some? && k + 1 == |previous|;
      }
    }
  }
}
