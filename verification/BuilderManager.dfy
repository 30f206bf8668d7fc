/** The builder manager of lib/builders/manager.go. Each method is one section run under
    the manager's lock, except `ClearStaleAttachments` (which the reaper runs unlocked)
    and `Reconcile` (which runs alone at startup). */
module BuilderManager {
  import opened BuilderHost

  datatype Outcome = Done | InUse | NoSuchBuilder | AlreadyThere | QuotaExceeded | IoError | NotHolder

  /** After an error-free reconcile nothing is half done and no disk is attached. */
  ghost predicate Settled(d: Disk, id: string) {
    id in d.meta ==>
      && (d.meta[id].status.Ready? || d.meta[id].status.Error?)
      && id in d.vols && d.vols[id] == {}
  }

  lemma OthersSettled(a: Disk, b: Disk, id: string)
    requires id in a.meta && b.meta - {id} == a.meta - {id} && b.vols - {id} == a.vols - {id}
    ensures forall other :: other != id && Settled(a, other) ==> Settled(b, other)
    ensures b.meta.Keys <= a.meta.Keys
  {
    forall other | other != id
      ensures other in a.meta <==> other in b.meta
      ensures other in a.meta ==> a.meta[other] == b.meta[other]
      ensures other in a.vols <==> other in b.vols
      ensures other in a.vols ==> a.vols[other] == b.vols[other]
    {
      assert other in a.meta <==> other in a.meta - {id};
      assert other in b.meta <==> other in b.meta - {id};
      assert other in a.vols <==> other in a.vols - {id};
      assert other in b.vols <==> other in b.vols - {id};
    }
  }

  class Manager {
    const host: Host
    var acquired: map<string, string>
    /** Builders whose asynchronous reset has been accepted and has not run yet. */
    var resets: set<string>

    ghost predicate Valid()
      reads this, host
    {
      && host.held == acquired.Keys && host.Secure()
      && forall id :: id in resets ==> id in host.disk.meta && host.disk.meta[id].status.Pruning?
    }

    /** A restart: whatever the crash left on disk, nothing is held. */
    constructor (h: Host)
      requires h.held == {} && h.Secure()
      ensures host == h && acquired == map[] && resets == {} && Valid()
    {
      host, acquired, resets := h, map[], {};
    }

    lemma HeldIsReady(id: string)
      requires Valid()
      ensures host.disk.vols.Keys <= host.disk.meta.Keys
      ensures id in acquired ==>
        id in host.disk.meta && host.disk.meta[id].status.Ready? && id in host.disk.vols
    {
    }

    method CreateBuilder(id: string, now: int, maxCount: nat) returns (r: Outcome)
      requires Valid()
      modifies host
      ensures Valid() && acquired == old(acquired) && resets == old(resets)
      ensures r.Done? ==>
        && id !in old(host.disk).meta
        && id in host.disk.meta && host.disk.meta[id].status.Ready?
        && id in host.disk.vols && host.disk.vols[id] == {}
      ensures r.AlreadyThere? ==> id in old(host.disk).meta && host.disk == old(host.disk)
      ensures host.disk.meta - {id} == old(host.disk).meta - {id}
    {
      HeldIsReady(id);
      hide Safe;
      var loaded := host.LoadMetadata(id);
      if loaded.Found? {
        return AlreadyThere;
      }
      if loaded.Failed? {
        return IoError;
      }
      if maxCount > 0 && |host.disk.meta| >= maxCount {
        return QuotaExceeded;
      }
      // Metadata first: the reverse order would orphan a volume with no owner.
      var meta := Meta(Ready, now, Never);
      var saved := host.SaveMetadata(id, meta);
      if !saved {
        return IoError;
      }
      var created := host.CreateVolume(id);
      if !created.Fresh? {
        AbandonCreate(id, meta);
        return IoError;
      }
      return Done;
    }

    /** Ownership metadata stays until any partly created volume is gone. */
    method AbandonCreate(id: string, meta: Meta)
      requires Valid() && id !in acquired && id !in resets && id in host.disk.meta
      modifies host
      ensures Valid() && acquired == old(acquired) && resets == old(resets)
      ensures host.disk.meta - {id} == old(host.disk).meta - {id}
    {
      hide Safe;
      var saved := host.SaveMetadata(id, meta.(status := Error));
      if !saved {
        return;
      }
      var cleaned := host.DeleteVolume(id);
      if cleaned.DeleteFailed? {
        return;
      }
      var removed := host.DeleteBuilderData(id);
    }

    method DiskAttached(id: string) returns (attached: bool, ok: bool)
      ensures ok ==> (attached <==> id in host.disk.vols && host.disk.vols[id] != {})
    {
      var vol := host.GetVolume(id);
      attached, ok := vol.Found? && vol.value != {}, !vol.Failed?;
    }

    /** Recreates a missing disk; true means the disk exists. */
    method EnsureDisk(id: string) returns (ok: bool)
      requires Valid() && id in host.disk.meta
      modifies host
      ensures Valid() && acquired == old(acquired) && resets == old(resets)
      ensures ok ==> id in host.disk.vols
      ensures host.disk == old(host.disk) ||
        (id !in old(host.disk).vols && host.disk == old(host.disk).(vols := old(host.disk).vols[id := {}]))
    {
      hide Safe;
      var vol := host.GetVolume(id);
      if !vol.NotFound? {
        return vol.Found?;
      }
      var created := host.CreateVolume(id);
      ok := !created.CreateFailed?;
    }

    /** Clears every attachment record of a disk: records of vanished instances are
        detached, surviving instances are deleted and their remaining records detached.
        Only instances attached to this disk are ever deleted. */
    method ClearStaleAttachments(id: string) returns (ok: bool)
      requires Valid()
      modifies host
      ensures Valid() && acquired == old(acquired) && resets == old(resets)
      ensures Steady(old(host.disk), host.disk)
      ensures ok && id in host.disk.vols ==> host.disk.vols[id] == {}
      ensures id in old(host.disk).vols ==> old(host.disk).vms - old(host.disk).vols[id] <= host.disk.vms
      ensures id !in old(host.disk).vols ==> host.disk == old(host.disk)
      ensures host.disk.vms <= old(host.disk).vms
    {
      hide Safe;
      var vol := host.GetVolume(id);
      if !vol.Found? {
        return vol.NotFound?;
      }
      var deletedInstance;
      ok, deletedInstance := ClearRecords(id, vol.value);
      if !ok || !deletedInstance {
        return;
      }
      vol := host.GetVolume(id);
      if vol.Found? {
        ok := DetachAll(id, vol.value);
      } else {
        ok := vol.NotFound?;
      }
    }

    method ClearRecords(id: string, records: set<string>) returns (ok: bool, deletedInstance: bool)
      requires Valid() && id in host.disk.vols && records == host.disk.vols[id]
      modifies host
      ensures Valid() && acquired == old(acquired) && resets == old(resets)
      ensures Steady(old(host.disk), host.disk)
      ensures ok && !deletedInstance ==> host.disk.vols[id] == {}
      ensures old(host.disk).vms - records <= host.disk.vms <= old(host.disk).vms
    {
      hide Safe;
      var todo := records;
      deletedInstance := false;
      while todo != {}
        invariant Valid() && acquired == old(acquired) && resets == old(resets)
        invariant Steady(old(host.disk), host.disk) && todo <= records
        invariant !deletedInstance ==> host.disk.vols[id] == todo
        invariant old(host.disk).vms - records <= host.disk.vms <= old(host.disk).vms
        decreases todo
      {
        var inst :| inst in todo;
        todo := todo - {inst};
        var found := host.GetInstance(inst);
        if found.Found? {
          var gone := host.DeleteInstance(inst);
          if gone.DeleteFailed? {
            return false, deletedInstance;
          }
          deletedInstance := true;
        } else if found.Failed? {
          return false, deletedInstance;
        } else {
          var detached := host.DetachVolume(id, inst);
          if !detached {
            return false, deletedInstance;
          }
        }
      }
      ok := true;
    }

    method DetachAll(id: string, records: set<string>) returns (ok: bool)
      requires Valid() && id in host.disk.vols && records == host.disk.vols[id]
      modifies host
      ensures Valid() && acquired == old(acquired) && resets == old(resets)
      ensures Steady(old(host.disk), host.disk) && host.disk.vms == old(host.disk).vms
      ensures ok ==> host.disk.vols[id] == {}
    {
      hide Safe;
      var todo := records;
      while todo != {}
        invariant Valid() && acquired == old(acquired) && resets == old(resets)
        invariant Steady(old(host.disk), host.disk) && host.disk.vms == old(host.disk).vms
        invariant host.disk.vols[id] == todo
        decreases todo
      {
        var inst :| inst in todo;
        todo := todo - {inst};
        var detached := host.DetachVolume(id, inst);
        if !detached {
          return false;
        }
      }
      ok := true;
    }

    /** DeleteBuilder. `busy` is the answer of the build-activity checker. */
    method DeleteBuilder(id: string, busy: bool) returns (r: Outcome)
      requires Valid()
      modifies host
      ensures Valid() && acquired == old(acquired) && resets == old(resets)
      ensures r.Done? ==> id !in host.disk.meta && id !in host.disk.vols && id !in acquired
      ensures r.InUse? ==>
        && host.disk == old(host.disk) && id in host.disk.meta
        && !host.disk.meta[id].status.Deleting?
        && (id in acquired || host.disk.meta[id].status.Pruning? || busy ||
            (id in host.disk.vols && host.disk.vols[id] != {}))
      ensures r.NoSuchBuilder? ==> id !in old(host.disk).meta && host.disk == old(host.disk)
      ensures host.disk.meta - {id} == old(host.disk).meta - {id}
      ensures host.disk.vols - {id} == old(host.disk).vols - {id} && host.disk.vms == old(host.disk).vms
    {
      HeldIsReady(id);
      hide Safe;
      var loaded := host.LoadMetadata(id);
      if !loaded.Found? {
        return if loaded.NotFound? then NoSuchBuilder else IoError;
      }
      var meta := loaded.value;
      if !meta.status.Deleting? {
        if id in acquired || meta.status.Pruning? || busy {
          return InUse;
        }
        var attached, ok := DiskAttached(id);
        if !ok {
          return IoError;
        }
        if attached {
          return InUse;
        }
        // Persisted before any side effect, so a crash here is resumed by reconcile.
        var saved := host.SaveMetadata(id, meta.(status := Deleting));
        if !saved {
          return IoError;
        }
      }
      var ok := FinishDelete(id);
      return if ok then Done else IoError;
    }

    /** The disk goes before the metadata that owns it. */
    method FinishDelete(id: string) returns (ok: bool)
      requires Valid() && id !in acquired && id !in resets
      modifies host
      ensures Valid() && acquired == old(acquired) && resets == old(resets)
      ensures ok ==> id !in host.disk.meta && id !in host.disk.vols
      ensures host.disk.meta - {id} == old(host.disk).meta - {id}
      ensures host.disk.vols - {id} == old(host.disk).vols - {id} && host.disk.vms == old(host.disk).vms
    {
      hide Safe;
      var gone := host.DeleteVolume(id);
      if gone.DeleteFailed? {
        return false;
      }
      ok := host.DeleteBuilderData(id);
    }

    /** AcquireForBuild: a ready, unheld builder is handed over with its disk present and
        free of attachments. */
    method AcquireForBuild(id: string, build: string) returns (r: Outcome)
      requires Valid()
      modifies this, host
      ensures Valid() && resets == old(resets)
      ensures r.Done? ==>
        && id !in old(acquired) && acquired == old(acquired)[id := build]
        && id in host.disk.vols && host.disk.vols[id] == {}
      ensures !r.Done? ==> acquired == old(acquired)
      ensures r.InUse? ==> id in old(host.disk).meta && (id in acquired || !old(host.disk).meta[id].status.Ready?)
      ensures r.NoSuchBuilder? ==> id !in old(host.disk).meta
      ensures id in old(acquired) ==> host.disk == old(host.disk)
      ensures host.disk.meta == old(host.disk).meta
      ensures old(host.disk).vms - host.disk.vms <= if id in old(host.disk).vols then old(host.disk).vols[id] else {}
    {
      HeldIsReady(id);
      hide Safe;
      var loaded := host.LoadMetadata(id);
      if !loaded.Found? {
        return if loaded.NotFound? then NoSuchBuilder else IoError;
      }
      if !loaded.value.status.Ready? || id in acquired {
        return InUse;
      }
      var ok := EnsureDisk(id);
      if !ok {
        return IoError;
      }
      var attached;
      attached, ok := DiskAttached(id);
      if !ok {
        return IoError;
      }
      if attached {
        ok := ClearStaleAttachments(id);
        if !ok {
          return IoError;
        }
      }
      host.Hold(id);
      acquired := acquired[id := build];
      return Done;
    }

    /** ReleaseBuild: usage is stamped before the hold is dropped, so a failed call
        leaves the builder held and can be retried. */
    method ReleaseBuild(id: string, build: string, now: int) returns (r: Outcome)
      requires Valid()
      modifies this, host
      ensures Valid() && resets == old(resets)
      ensures r.Done? ==>
        && id in old(acquired) && old(acquired)[id] == build && acquired == old(acquired) - {id}
        && id in old(host.disk).meta && id in host.disk.meta
        && host.disk.meta[id] == old(host.disk).meta[id].(lastUsed := At(now))
      ensures !r.Done? ==> acquired == old(acquired) && host.disk == old(host.disk)
      ensures r.NotHolder? <==> id !in old(acquired) || old(acquired)[id] != build
      ensures host.disk.vols == old(host.disk).vols && host.disk.vms == old(host.disk).vms
    {
      HeldIsReady(id);
      hide Safe;
      if id !in acquired || acquired[id] != build {
        return NotHolder;
      }
      var loaded := host.LoadMetadata(id);
      if loaded.NotFound? {
        // A held builder has metadata, so the source's branch for one deleted while
        // held is never taken.
        assert false;
      }
      if loaded.Failed? {
        return IoError;
      }
      var saved := host.SaveMetadata(id, loaded.value.(lastUsed := At(now)));
      if !saved {
        return IoError;
      }
      host.Unhold(id);
      acquired := acquired - {id};
      return Done;
    }

    /** ResetDisk: accepts a reset and leaves it to a later, separate section. */
    method ResetDisk(id: string, busy: bool) returns (r: Outcome)
      requires Valid()
      modifies this, host
      ensures Valid() && acquired == old(acquired)
      ensures r.Done? ==>
        && id in host.disk.meta && host.disk.meta[id].status.Pruning?
        && resets == old(resets) + {id} && id !in old(resets) && id !in acquired
      ensures !r.Done? ==> resets == old(resets) && host.disk == old(host.disk)
      ensures host.disk.vols == old(host.disk).vols && host.disk.vms == old(host.disk).vms
    {
      HeldIsReady(id);
      hide Safe;
      var loaded := host.LoadMetadata(id);
      if !loaded.Found? {
        return if loaded.NotFound? then NoSuchBuilder else IoError;
      }
      var meta := loaded.value;
      if id in acquired || !(meta.status.Ready? || meta.status.Error?) || busy {
        return InUse;
      }
      var attached, ok := DiskAttached(id);
      if !ok {
        return IoError;
      }
      if attached {
        return InUse;
      }
      var saved := host.SaveMetadata(id, meta.(status := Pruning));
      if !saved {
        return IoError;
      }
      resets := resets + {id};
      return Done;
    }

    /** resetDisk: recreates the disk of a pruning builder. */
    method RunReset(id: string) returns (ok: bool)
      requires Valid() && (id in host.disk.meta ==> host.disk.meta[id].status.Pruning?)
      modifies this, host
      ensures Valid() && acquired == old(acquired) && resets == old(resets) - {id}
      ensures ok ==>
        && id in host.disk.meta && host.disk.meta[id].status.Ready?
        && id in host.disk.vols && host.disk.vols[id] == {}
      ensures host.disk.meta - {id} == old(host.disk).meta - {id} && host.disk.meta.Keys == old(host.disk).meta.Keys
      ensures host.disk.vols - {id} == old(host.disk).vols - {id} && host.disk.vms == old(host.disk).vms
    {
      HeldIsReady(id);
      hide Safe;
      resets := resets - {id};
      var loaded := host.LoadMetadata(id);
      if !loaded.Found? {
        return false;
      }
      var recreated := RecreateDisk(id);
      var saved := host.SaveMetadata(id, loaded.value.(status := if recreated then Ready else Error));
      ok := recreated && saved;
    }

    method RecreateDisk(id: string) returns (ok: bool)
      requires Valid() && id !in acquired && id in host.disk.meta
      modifies host
      ensures Valid() && acquired == old(acquired) && resets == old(resets)
      ensures ok ==> id in host.disk.vols && host.disk.vols[id] == {}
      ensures host.disk.meta == old(host.disk).meta && host.disk.vms == old(host.disk).vms
      ensures host.disk.vols - {id} == old(host.disk).vols - {id}
    {
      hide Safe;
      var gone := host.DeleteVolume(id);
      if gone.DeleteFailed? {
        return false;
      }
      var created := host.CreateVolume(id);
      ok := created.Fresh?;
    }

    /** The build that holds a builder boots its VM on the builder's disk. */
    method BootBuildVM(id: string, inst: string) returns (ok: bool)
      requires Valid() && id in acquired
      modifies host
      ensures Valid() && acquired == old(acquired) && resets == old(resets)
      ensures ok ==> id in host.disk.vols && inst in host.disk.vols[id]
      ensures host.disk.meta == old(host.disk).meta && host.disk.vols - {id} == old(host.disk).vols - {id}
    {
      hide Safe;
      ok := host.BootInstance(id, inst);
    }

    /** One builder's turn of the startup reconciliation. */
    method ReconcileOne(id: string) returns (ok: bool)
      requires Valid() && acquired == map[] && resets == {}
      modifies this, host
      ensures Valid() && acquired == map[] && resets == {}
      ensures ok ==> Settled(host.disk, id)
      ensures forall other :: other != id && Settled(old(host.disk), other) ==> Settled(host.disk, other)
      ensures host.disk.meta.Keys <= old(host.disk).meta.Keys
    {
      HeldIsReady(id);
      hide Safe;
      var loaded := host.LoadMetadata(id);
      if !loaded.Found? {
        return false;
      }
      match loaded.value.status
      case Deleting =>
        ok := ClearStaleAttachments(id);
        if ok {
          ghost var mid := host.disk;
          var r := DeleteBuilder(id, false);
          OthersSettled(mid, host.disk, id);
          ok := r.Done?;
        }
      case Pruning =>
        ghost var mid := host.disk;
        ok := RunReset(id);
        OthersSettled(mid, host.disk, id);
      case _ =>
        ok := EnsureDisk(id);
        if ok {
          ok := ClearStaleAttachments(id);
        }
    }

    /** Startup reconciliation: from any state a crash can leave, a pass without errors
        finishes every delete and prune and leaves each builder an unattached disk. */
    method Reconcile() returns (ok: bool)
      requires Valid() && acquired == map[] && resets == {}
      modifies this, host
      ensures Valid() && acquired == map[] && resets == {}
      ensures ok ==> forall id :: Settled(host.disk, id)
      ensures host.disk.meta.Keys <= old(host.disk).meta.Keys
    {
      hide Safe;
      ok := true;
      var todo := host.disk.meta.Keys;
      while todo != {}
        invariant Valid() && acquired == map[] && resets == {}
        invariant host.disk.meta.Keys <= old(host.disk).meta.Keys
        invariant ok ==> forall id :: id !in todo ==> Settled(host.disk, id)
        decreases todo
      {
        var id :| id in todo;
        var settled := ReconcileOne(id);
        ok := ok && settled;
        todo := todo - {id};
      }
    }

    static function LastActivity(m: Meta): int {
      if m.lastUsed.At? then m.lastUsed.time else m.created
    }

    /** A builder the reaper may take: marked already, or ready, unheld, without builds
        and idle since the cutoff. */
    predicate Reapable(id: string, cutoff: int, busy: bool)
      reads this, host
    {
      && id in host.disk.meta
      && (host.disk.meta[id].status.Deleting? ||
          (host.disk.meta[id].status.Ready? && id !in acquired && !busy && LastActivity(host.disk.meta[id]) <= cutoff))
    }

    /** Marks exactly the builders that may be taken, unless the metadata cannot be read or written. */
    method MarkIdleBuilderDeleting(id: string, cutoff: int, busy: bool) returns (marked: bool, failed: bool)
      requires Valid()
      modifies host
      ensures Valid() && acquired == old(acquired) && resets == old(resets)
      ensures !failed ==> (marked <==> old(Reapable(id, cutoff, busy)))
      ensures marked ==> !failed && id in host.disk.meta && host.disk.meta[id].status.Deleting?
      ensures !marked ==> host.disk == old(host.disk)
      ensures host.disk.meta - {id} == old(host.disk).meta - {id}
      ensures host.disk.vols == old(host.disk).vols && host.disk.vms == old(host.disk).vms
    {
      HeldIsReady(id);
      hide Safe;
      var loaded := host.LoadMetadata(id);
      if !loaded.Found? {
        return false, true;
      }
      var meta := loaded.value;
      if meta.status.Deleting? {
        return true, false;
      }
      if !meta.status.Ready? || id in acquired || busy || LastActivity(meta) > cutoff {
        return false, false;
      }
      marked := host.SaveMetadata(id, meta.(status := Deleting));
      failed := !marked;
    }

    /** One builder's turn of the reaper. A builder that is not reapable is untouched; one that is reaped
        leaves neither metadata nor disk. */
    method ReapOne(id: string, cutoff: int, busy: bool) returns (reaped: bool)
      requires Valid()
      modifies host
      ensures Valid() && acquired == old(acquired) && resets == old(resets)
      ensures !old(Reapable(id, cutoff, busy)) ==> host.disk == old(host.disk)
      ensures reaped ==> old(Reapable(id, cutoff, busy)) && id !in host.disk.meta && id !in host.disk.vols
      ensures host.disk.meta - {id} == old(host.disk).meta - {id}
    {
      hide Safe;
      var marked, failed := MarkIdleBuilderDeleting(id, cutoff, busy);
      if failed || !marked {
        return false;
      }
      var ok := ClearStaleAttachments(id);
      if !ok {
        return false;
      }
      var r := DeleteBuilder(id, busy);
      HeldIsReady(id);
      reaped := r.Done? || r.NoSuchBuilder?;
    }
  }

  /** A crash leaves one of the recorded states behind; the restarted manager's
      error-free reconcile settles it. Its own states are recorded in turn, so an
      interrupted reconcile is covered by the same statement. */
  method RecoverFrom(crashed: Manager, ghost k: nat, left: Disk) returns (next: Manager, ok: bool)
    requires crashed.Valid() && k < |crashed.host.trace| && left == crashed.host.trace[k].disk
    ensures next.Valid() && next.acquired == map[]
    ensures ok ==> forall id :: Settled(next.host.disk, id)
    ensures left.meta.Keys >= next.host.disk.meta.Keys
  {
    var host := new Host(left);
    next := new Manager(host);
    ok := next.Reconcile();
  }
}
