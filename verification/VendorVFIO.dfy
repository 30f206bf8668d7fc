/** configure of lib/devices/vendor_vfio_linux.go. It runs under the lock that every
    quarantine change takes; readers of the health store, which may repair it, still run
    between its steps. */
module VendorVFIO {
  import opened VFHealthFile
  import opened VFHealth
  import opened VFHealthStore

  /** One write to a VF's type file, with the store as it was at that moment. */
  datatype Write = Write(vf: string, value: string, store: Store)

  /** A profile type was written only to a VF the store knew to be healthy. */
  ghost predicate Permitted(w: Write) {
    w.value != "0" ==> Available(w.store) && w.vf !in Quarantined(w.store.records)
  }

  class Device {
    const store: HealthStore
    var current: map<string, string>
    ghost var writes: seq<Write>

    ghost predicate Valid()
      reads this, store
    {
      Inv(store.View()) && forall k :: 0 <= k < |writes| ==> Permitted(writes[k])
    }

    /** The VFs with whatever types they have at the start. */
    constructor (s: HealthStore, types: map<string, string>)
      requires Inv(s.View())
      ensures store == s && current == types && writes == [] && Valid()
    {
      store, current, writes := s, types, [];
    }

    /** Other threads list the quarantined VFs, any number of times. A reader may reload
        or repair the store, but leaves one that is available alone. */
    method OthersRead()
      requires Valid()
      modifies store
      ensures Valid()
      ensures old(Available(store.View())) ==> store.View() == old(store.View())
    {
      var calls: nat := *;
      while calls > 0
        invariant Valid()
        invariant old(Available(store.View())) ==> store.View() == old(store.View())
      {
        var addresses := store.CheckedAddresses(1);
        calls := calls - 1;
      }
    }

    /** The type file may be unreadable. */
    method ReadType(vf: string) returns (t: Option<string>)
      ensures t.Some? ==> vf in current && t.value == current[vf]
    {
      var fails: bool := *;
      t := if fails || vf !in current then None else Some(current[vf]);
    }

    /** A write may fail, and the driver may not take the value it was given. */
    method WriteType(vf: string, value: string) returns (ok: bool)
      modifies this
      ensures old(Valid()) && Permitted(Write(vf, value, store.View())) ==> Valid()
      ensures writes == old(writes) + [Write(vf, value, store.View())]
      ensures current == old(current) || current == old(current)[vf := value]
    {
      ok := *;
      var taken: bool := *;
      if ok && taken {
        current := current[vf := value];
      }
      writes := writes + [Write(vf, value, store.View())];
    }

    /** Whether a process still has the device open; the scan may fail. */
    method InUse(vf: string) returns (inUse: Option<bool>) {
      var scanned: bool := *;
      var open: bool := *;
      inUse := if scanned then Some(open) else None;
    }

    /** Clears a configured VF, refusing while it is in use, and verifies the reset. */
    method Reset(vf: string) returns (ok: bool)
      requires Valid()
      modifies this, store
      ensures Valid()
      ensures old(Available(store.View())) ==> store.View() == old(store.View())
      ensures ok ==> vf in current && current[vf] == "0"
      ensures |old(writes)| <= |writes| <= |old(writes)| + 1 && old(writes) == writes[..|old(writes)|]
      ensures |writes| == |old(writes)| + 1 ==> writes[|old(writes)|].value == "0"
    {
      var inUse := InUse(vf);
      if inUse.None? || inUse.value {
        return false;
      }
      OthersRead();
      var wrote := WriteType(vf, "0");
      if !wrote {
        return false;
      }
      OthersRead();
      var now := ReadType(vf);
      ok := now.Some? && now.value == "0";
    }

    /** A profile type is never written to a VF that is quarantined, or of unknown health,
        at the moment of the write; success means the type was read back. */
    method Configure(vf: string, profileType: string) returns (ok: bool)
      requires Valid()
      modifies this, store
      ensures Valid()
      ensures ok ==> vf in current && current[vf] == profileType
      ensures old(Available(store.View())) ==> store.View() == old(store.View())
      ensures profileType == "" || profileType == "0" ==> !ok && writes == old(writes)
      ensures old(Available(store.View())) && vf in Quarantined(old(store.records)) ==> !ok && writes == old(writes)
      ensures ok ==> Available(store.View()) && vf !in Quarantined(store.records)
    {
      if profileType == "" || profileType == "0" {
        return false;
      }
      var quarantined := store.CheckedAddresses(1);
      if quarantined.None? || vf in quarantined.value {
        return false;
      }
      OthersRead();
      var before := ReadType(vf);
      if before.None? {
        return false;
      }
      if before.value == profileType {
        return true;
      }
      if before.value != "0" {
        var reset := Reset(vf);
        if !reset {
          return false;
        }
      }
      OthersRead();
      var wrote := WriteType(vf, profileType);
      if !wrote {
        return false;
      }
      OthersRead();
      var now := ReadType(vf);
      ok := now.Some? && now.value == profileType;
    }
  }
}
