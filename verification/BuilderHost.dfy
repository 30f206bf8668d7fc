/** What the builder manager sees of the machine: builder metadata on disk, the builder
    disks with their attachment records, and the instances. Every call may fail, and
    `trace` records each persistent state in turn: a crash leaves one of them behind. */
module BuilderHost {
  datatype Status = Ready | Pruning | Deleting | Error

  datatype Stamp = Never | At(time: int)

  datatype Meta = Meta(status: Status, created: int, lastUsed: Stamp)

  /** Builder disks are keyed by their builder: the volume ID is a fixed prefix followed
      by the builder ID. A disk holds the IDs of the instances attached to it. */
  datatype Disk = Disk(meta: map<string, Meta>, vols: map<string, set<string>>, vms: set<string>)

  datatype Load<+T> = Found(value: T) | NotFound | Failed

  datatype Created = Fresh | AlreadyExists | CreateFailed

  datatype Deleted = Gone | Missing | DeleteFailed

  /** Every builder disk has owning metadata, and a held builder is ready with its disk. */
  ghost predicate CrashSafe(d: Disk, held: set<string>) {
    && d.vols.Keys <= d.meta.Keys
    && forall id :: id in held ==> id in d.meta && d.meta[id].status.Ready? && id in d.vols
  }

  /** A persistent state together with the builders held at that moment. */
  datatype Point = Point(disk: Disk, held: set<string>)

  /** Every persistent state so far, the present one included, is crash safe. */
  ghost predicate Safe(d: Disk, held: set<string>, trace: seq<Point>) {
    && CrashSafe(d, held)
    && forall k :: 0 <= k < |trace| ==> CrashSafe(trace[k].disk, trace[k].held)
  }

  /** The same builders and disks, with attachments only dropped. */
  ghost predicate Steady(a: Disk, b: Disk) {
    && b.meta == a.meta && b.vols.Keys == a.vols.Keys
    && forall id :: id in a.vols ==> b.vols[id] <= a.vols[id]
  }

  class Host {
    var disk: Disk
    ghost var held: set<string>
    ghost var trace: seq<Point>

    constructor (d: Disk)
      ensures disk == d && held == {} && trace == [Point(d, {})]
    {
      disk, held, trace := d, {}, [Point(d, {})];
    }

    ghost predicate Secure()
      reads this
    {
      Safe(disk, held, trace)
    }

    method Step(d: Disk)
      modifies this
      ensures disk == d && held == old(held) && trace == old(trace) + [Point(d, held)]
    {
      disk := d;
      trace := trace + [Point(d, held)];
    }

    /** The manager's hold on a builder, mirrored here so that every recorded state
        knows what was held. */
    ghost method Hold(id: string)
      requires Secure() && id in disk.meta && disk.meta[id].status.Ready? && id in disk.vols
      modifies this`held
      ensures Secure() && held == old(held) + {id}
    {
      held := held + {id};
    }

    ghost method Unhold(id: string)
      requires Secure()
      modifies this`held
      ensures Secure() && held == old(held) - {id}
    {
      held := held - {id};
    }

    method LoadMetadata(id: string) returns (r: Load<Meta>)
      ensures r.Found? ==> id in disk.meta && r.value == disk.meta[id]
      ensures r.NotFound? ==> id !in disk.meta
    {
      var fails: bool := *;
      r := if fails then Failed else if id in disk.meta then Found(disk.meta[id]) else NotFound;
    }

    /** Written to a temporary file and renamed, so a failure changes nothing. */
    method SaveMetadata(id: string, m: Meta) returns (ok: bool)
      modifies this
      ensures disk == if ok then old(disk).(meta := old(disk).meta[id := m]) else old(disk)
      ensures held == old(held) && trace == old(trace) + [Point(disk, held)]
      ensures old(Secure() && (id !in held || m.status.Ready?)) ==> Secure()
    {
      ok := *;
      Step(if ok then disk.(meta := disk.meta[id := m]) else disk);
    }

    /** A failed removal may or may not have reached the metadata file. */
    method DeleteBuilderData(id: string) returns (ok: bool)
      modifies this
      ensures disk == old(disk).(meta := old(disk).meta - {id}) || (!ok && disk == old(disk))
      ensures held == old(held) && trace == old(trace) + [Point(disk, held)]
      ensures old(Secure() && id !in held && id !in disk.vols) ==> Secure()
    {
      ok := *;
      var partly: bool := *;
      Step(if ok || partly then disk.(meta := disk.meta - {id}) else disk);
    }

    method GetVolume(id: string) returns (r: Load<set<string>>)
      ensures r.Found? ==> id in disk.vols && r.value == disk.vols[id]
      ensures r.NotFound? ==> id !in disk.vols
    {
      var fails: bool := *;
      r := if fails then Failed else if id in disk.vols then Found(disk.vols[id]) else NotFound;
    }

    /** A failed creation may leave an empty volume behind. */
    method CreateVolume(id: string) returns (r: Created)
      modifies this
      ensures r.Fresh? ==> id !in old(disk).vols && disk == old(disk).(vols := old(disk).vols[id := {}])
      ensures r.AlreadyExists? ==> id in old(disk).vols && disk == old(disk)
      ensures r.CreateFailed? ==>
        disk == old(disk) || (id !in old(disk).vols && disk == old(disk).(vols := old(disk).vols[id := {}]))
      ensures held == old(held) && trace == old(trace) + [Point(disk, held)]
      ensures old(Secure() && id in disk.meta) ==> Secure()
    {
      var fails: bool := *;
      var partly: bool := *;
      if fails {
        r := CreateFailed;
        Step(if partly && id !in disk.vols then disk.(vols := disk.vols[id := {}]) else disk);
      } else if id in disk.vols {
        r := AlreadyExists;
        Step(disk);
      } else {
        r := Fresh;
        Step(disk.(vols := disk.vols[id := {}]));
      }
    }

    /** The volume manager refuses to delete an attached volume. */
    method DeleteVolume(id: string) returns (r: Deleted)
      modifies this
      ensures r.Gone? ==> id in old(disk).vols && old(disk).vols[id] == {} && disk == old(disk).(vols := old(disk).vols - {id})
      ensures r.Missing? ==> id !in old(disk).vols && disk == old(disk)
      ensures r.DeleteFailed? ==>
        disk == old(disk) ||
        (id in old(disk).vols && old(disk).vols[id] == {} && disk == old(disk).(vols := old(disk).vols - {id}))
      ensures held == old(held) && trace == old(trace) + [Point(disk, held)]
      ensures old(Secure() && id !in held) ==> Secure()
    {
      var fails: bool := *;
      var partly: bool := *;
      var removable := id in disk.vols && disk.vols[id] == {};
      if fails || (id in disk.vols && !removable) {
        r := DeleteFailed;
        Step(if partly && removable then disk.(vols := disk.vols - {id}) else disk);
      } else if id !in disk.vols {
        r := Missing;
        Step(disk);
      } else {
        r := Gone;
        Step(disk.(vols := disk.vols - {id}));
      }
    }

    method DetachVolume(id: string, inst: string) returns (ok: bool)
      modifies this
      ensures ok ==> id in old(disk).vols && inst in old(disk).vols[id]
      ensures ok ==>
        disk == old(disk).(vols := old(disk).vols[id := old(disk).vols[id] - {inst}])
      ensures !ok ==> disk == old(disk)
      ensures held == old(held) && trace == old(trace) + [Point(disk, held)]
      ensures old(Secure()) ==> Secure()
    {
      ok := *;
      ok := ok && id in disk.vols && inst in disk.vols[id];
      Step(if ok then disk.(vols := disk.vols[id := disk.vols[id] - {inst}]) else disk);
    }

    /** An instance boots with the volume attached, or fails leaving any part of that. */
    method BootInstance(id: string, inst: string) returns (ok: bool)
      modifies this
      ensures ok ==> id in disk.vols && inst in disk.vols[id] && inst in disk.vms
      ensures disk.meta == old(disk).meta && disk.vols.Keys == old(disk).vols.Keys
      ensures disk.vols - {id} == old(disk).vols - {id}
      ensures id in disk.vols ==> old(disk).vols[id] <= disk.vols[id] <= old(disk).vols[id] + {inst}
      ensures old(disk).vms <= disk.vms <= old(disk).vms + {inst}
      ensures held == old(held) && trace == old(trace) + [Point(disk, held)]
      ensures old(Secure()) ==> Secure()
    {
      ok := *;
      ok := ok && id in disk.vols;
      if ok {
        Step(disk.(vols := disk.vols[id := disk.vols[id] + {inst}], vms := disk.vms + {inst}));
      } else {
        Step(disk);
      }
    }

    method GetInstance(inst: string) returns (r: Load<()>)
      ensures r.Found? ==> inst in disk.vms
      ensures r.NotFound? ==> inst !in disk.vms
    {
      var fails: bool := *;
      r := if fails then Failed else if inst in disk.vms then Found(()) else NotFound;
    }

    /** Deleting an instance only warns when a detach fails, so any of its attachment
        records may survive. */
    method DeleteInstance(inst: string) returns (r: Deleted)
      modifies this
      ensures r.Gone? ==> inst in old(disk).vms && inst !in disk.vms
      ensures r.Missing? ==> inst !in old(disk).vms
      ensures Steady(old(disk), disk)
      ensures forall id :: id in disk.vols ==> old(disk).vols[id] - {inst} <= disk.vols[id]
      ensures old(disk).vms - {inst} <= disk.vms <= old(disk).vms
      ensures held == old(held) && trace == old(trace) + [Point(disk, held)]
      ensures old(Secure()) ==> Secure()
    {
      var fails: bool := *;
      var kept: set<string> := *;
      if inst !in disk.vms {
        r := Missing;
        Step(disk);
        return;
      }
      r := if fails then DeleteFailed else Gone;
      var vols := map id | id in disk.vols :: if id in kept then disk.vols[id] else disk.vols[id] - {inst};
      Step(Disk(disk.meta, vols, disk.vms - {inst}));
    }
  }
}
