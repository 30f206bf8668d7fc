/** The VF health file of lib/devices/vf_health.go: its records, the validation applied on
    load, and the listing written out. JSON text is abstracted to the value it carries. */
module VFHealthFile {
  datatype Option<+T> = None | Some(value: T)

  /** Times are numbers; zero is Go's zero time. */
  datatype Failure = Failure(instance: string, assignedAt: string, reported: int)

  datatype Record = Record(address: string, failures: seq<Failure>, quarantined: Option<int>)

  datatype File =
    | Absent
    | Malformed
    | Json(version: int, records: Option<seq<Record>>)

  type Table = map<string, Record>

  const VERSION := 1

  predicate Hex(c: char) {
    '0' <= c <= '9' || 'a' <= c <= 'f'
  }

  /** ^[0-9a-f]{4}:[0-9a-f]{2}:[0-9a-f]{2}\.[0-7]$ */
  predicate ValidAddress(a: string) {
    && |a| == 12
    && Hex(a[0]) && Hex(a[1]) && Hex(a[2]) && Hex(a[3]) && a[4] == ':'
    && Hex(a[5]) && Hex(a[6]) && a[7] == ':' && Hex(a[8]) && Hex(a[9]) && a[10] == '.'
    && '0' <= a[11] <= '7'
  }

  predicate SameAssignment(f: Failure, instance: string, assignedAt: string) {
    f.instance == instance && f.assignedAt == assignedAt
  }

  /** The key under which load looks for duplicate assignments. */
  function AssignmentKey(f: Failure): string {
    f.instance + "\0" + f.assignedAt
  }

  ghost predicate ValidRecord(r: Record) {
    && ValidAddress(r.address)
    && (r.quarantined.Some? ==> r.quarantined.value != 0)
    && (r.quarantined.None? ==> r.failures != [])
    && (forall i :: 0 <= i < |r.failures| ==> r.failures[i].reported != 0)
    && (forall i, j :: 0 <= i < j < |r.failures| ==> AssignmentKey(r.failures[i]) != AssignmentKey(r.failures[j]))
  }

  ghost predicate DistinctAddresses(rs: seq<Record>) {
    forall i, j :: 0 <= i < j < |rs| ==> rs[i].address != rs[j].address
  }

  ghost predicate ValidRecords(rs: seq<Record>) {
    DistinctAddresses(rs) && forall i :: 0 <= i < |rs| ==> ValidRecord(rs[i])
  }

  function TableOf(rs: seq<Record>): Table {
    if rs == [] then map[]
    else TableOf(rs[..|rs| - 1])[rs[|rs| - 1].address := rs[|rs| - 1]]
  }

  /** What a load makes of a file, before any re-quarantine: a missing file is an empty
      table, and anything that fails validation is rejected whole. */
  ghost function Parse(f: File): Option<Table> {
    match f
    case Absent => Some(map[])
    case Malformed => None
    case Json(version, records) =>
      if version == VERSION && records.Some? && ValidRecords(records.value) then Some(TableOf(records.value)) else None
  }

  function Quarantined(t: Table): set<string> {
    set a | a in t && t[a].quarantined.Some?
  }

  /* ---- string order ---- */

  predicate Less(a: string, b: string) {
    if b == "" then false
    else if a == "" then true
    else a[0] < b[0] || (a[0] == b[0] && Less(a[1..], b[1..]))
  }

  lemma {:induction false} LessTotal(a: string, b: string)
    ensures Less(a, b) || a == b || Less(b, a)
    decreases |a|
  {
    if a != "" && b != "" && a[0] == b[0] {
      LessTotal(a[1..], b[1..]);
      assert a == [a[0]] + a[1..] && b == [b[0]] + b[1..];
    }
  }

  lemma {:induction false} LessTransitive(a: string, b: string, c: string)
    requires Less(a, b) && Less(b, c)
    ensures Less(a, c)
    decreases |a|
  {
    if a != "" && b != "" && c != "" && a[0] == b[0] == c[0] {
      LessTransitive(a[1..], b[1..], c[1..]);
    }
  }

  lemma {:induction false} LessIrreflexive(a: string)
    ensures !Less(a, a)
    decreases |a|
  {
    if a != "" {
      LessIrreflexive(a[1..]);
    }
  }

  ghost predicate Sorted(rs: seq<Record>) {
    forall i, j :: 0 <= i < j < |rs| ==> Less(rs[i].address, rs[j].address)
  }

  ghost predicate Listed(rs: seq<Record>, a: string) {
    exists i :: 0 <= i < |rs| && rs[i].address == a
  }

  /** The records of a table in address order. */
  ghost predicate IsListing(rs: seq<Record>, t: Table) {
    && Sorted(rs)
    && (forall i :: 0 <= i < |rs| ==> rs[i].address in t && t[rs[i].address] == rs[i])
    && (forall a :: a in t ==> Listed(rs, a))
  }

  lemma {:induction false} TableEntries(rs: seq<Record>)
    ensures forall a :: a in TableOf(rs) <==> Listed(rs, a)
    ensures DistinctAddresses(rs) ==> forall i :: 0 <= i < |rs| ==>
      rs[i].address in TableOf(rs) && TableOf(rs)[rs[i].address] == rs[i]
    decreases |rs|
  {
    if rs != [] {
      var front, last := rs[..|rs| - 1], rs[|rs| - 1];
      TableEntries(front);
      forall a ensures Listed(rs, a) <==> Listed(front, a) || a == last.address {
        assert rs[|rs| - 1].address == last.address;
        if Listed(front, a) {
          var i :| 0 <= i < |front| && front[i].address == a;
          assert rs[i].address == a;
        }
      }
      if DistinctAddresses(rs) {
        forall i | 0 <= i < |rs| ensures rs[i].address in TableOf(rs) && TableOf(rs)[rs[i].address] == rs[i] {
          assert i < |front| ==> front[i] == rs[i] && Listed(front, rs[i].address);
        }
      }
    }
  }

  lemma ListingTable(rs: seq<Record>, t: Table)
    requires IsListing(rs, t)
    ensures DistinctAddresses(rs) && TableOf(rs) == t
  {
    forall i, j | 0 <= i < j < |rs| ensures rs[i].address != rs[j].address {
      LessIrreflexive(rs[i].address);
    }
    TableEntries(rs);
    assert TableOf(rs).Keys == t.Keys;
  }

  /** sortedRecordsLocked: the records ordered by address. */
  method SortedRecords(t: Table) returns (rs: seq<Record>)
    requires forall a :: a in t ==> t[a].address == a
    ensures IsListing(rs, t)
  {
    rs := [];
    var todo := t.Keys;
    while todo != {}
      invariant todo <= t.Keys
      invariant IsListing(rs, map a | a in t && a !in todo :: t[a])
      decreases todo
    {
      var a :| a in todo;
      var done := map b | b in t && b !in todo :: t[b];
      rs := Insert(rs, done, t[a]);
      todo := todo - {a};
      assert (map b | b in t && b !in todo :: t[b]) == done[a := t[a]];
    }
    assert (map a | a in t && a !in todo :: t[a]) == t;
  }

  method Insert(rs: seq<Record>, t: Table, r: Record) returns (out: seq<Record>)
    requires IsListing(rs, t) && r.address !in t
    ensures IsListing(out, t[r.address := r])
  {
    var i := 0;
    while i < |rs| && Less(rs[i].address, r.address)
      invariant 0 <= i <= |rs|
      invariant forall j :: 0 <= j < i ==> Less(rs[j].address, r.address)
    {
      i := i + 1;
    }
    out := rs[..i] + [r] + rs[i..];
    InsertedInOrder(rs, t, r, i);
  }

  lemma InsertedInOrder(rs: seq<Record>, t: Table, r: Record, i: nat)
    requires IsListing(rs, t) && r.address !in t && i <= |rs|
    requires forall j :: 0 <= j < i ==> Less(rs[j].address, r.address)
    requires i < |rs| ==> !Less(rs[i].address, r.address)
    ensures IsListing(rs[..i] + [r] + rs[i..], t[r.address := r])
  {
    var out := rs[..i] + [r] + rs[i..];
    assert Sorted(out) by { InsertedSorted(rs, r, i); }
    hide Sorted;
    forall a | a in t ensures Listed(out, a) {
      var j :| 0 <= j < |rs| && rs[j].address == a;
      assert out[if j < i then j else j + 1].address == a;
    }
    assert Listed(out, r.address) by { assert out[i].address == r.address; }
  }

  lemma InsertedSorted(rs: seq<Record>, r: Record, i: nat)
    requires Sorted(rs) && i <= |rs|
    requires forall j :: 0 <= j < |rs| ==> rs[j].address != r.address
    requires forall j :: 0 <= j < i ==> Less(rs[j].address, r.address)
    requires i < |rs| ==> !Less(rs[i].address, r.address)
    ensures Sorted(rs[..i] + [r] + rs[i..])
  {
    forall j | i <= j < |rs| ensures Less(r.address, rs[j].address) {
      LessTotal(rs[i].address, r.address);
      if i < j {
        LessTransitive(r.address, rs[i].address, rs[j].address);
      }
    }
  }

  /* ---- the validation loops of a load ---- */

  method CheckRecord(r: Record) returns (ok: bool)
    ensures ok == ValidRecord(r)
  {
    if !ValidAddress(r.address) || (r.quarantined.Some? && r.quarantined.value == 0) || (r.quarantined.None? && r.failures == []) {
      return false;
    }
    var assignments := {};
    for j := 0 to |r.failures|
      invariant forall i :: 0 <= i < j ==> r.failures[i].reported != 0 && AssignmentKey(r.failures[i]) in assignments
      invariant forall k :: k in assignments ==> exists i :: 0 <= i < j && AssignmentKey(r.failures[i]) == k
      invariant forall i, k :: 0 <= i < k < j ==> AssignmentKey(r.failures[i]) != AssignmentKey(r.failures[k])
    {
      var key := AssignmentKey(r.failures[j]);
      if r.failures[j].reported == 0 || key in assignments {
        return false;
      }
      assignments := assignments + {key};
    }
    ok := true;
  }

  lemma TableNext(rs: seq<Record>, i: nat)
    requires i < |rs| && DistinctAddresses(rs[..i])
    ensures rs[i].address in TableOf(rs[..i]) <==> !DistinctAddresses(rs[..i + 1])
    ensures TableOf(rs[..i + 1]) == TableOf(rs[..i])[rs[i].address := rs[i]]
  {
    var before, after := rs[..i], rs[..i + 1];
    TableEntries(before);
    assert after[..i] == before;
    if Listed(before, rs[i].address) {
      var j :| 0 <= j < i && before[j].address == rs[i].address;
      assert after[j].address == after[i].address;
    } else {
      forall j | 0 <= j < i ensures after[j].address != rs[i].address {
        assert before[j].address == after[j].address;
      }
      forall j, k | 0 <= j < k < i + 1 ensures after[j].address != after[k].address {
        assert k < i ==> before[j].address != before[k].address;
      }
    }
  }

  lemma PrefixValid(rs: seq<Record>, i: nat)
    requires i <= |rs| && ValidRecords(rs)
    ensures ValidRecords(rs[..i])
  {
  }

  method LoadRecords(rs: seq<Record>) returns (loaded: Option<Table>)
    ensures loaded.Some? <==> ValidRecords(rs)
    ensures loaded.Some? ==> loaded.value == TableOf(rs)
  {
    hide ValidRecord;
    var table: Table := map[];
    for i := 0 to |rs|
      invariant ValidRecords(rs[..i]) && table == TableOf(rs[..i])
    {
      TableNext(rs, i);
      if ValidRecords(rs) {
        PrefixValid(rs, i + 1);
      }
      var ok := CheckRecord(rs[i]);
      if !ok || rs[i].address in table {
        return None;
      }
      assert rs[..i + 1] == rs[..i] + [rs[i]];
      table := table[rs[i].address := rs[i]];
    }
    assert rs[..|rs|] == rs;
    return Some(table);
  }

  method LoadFile(f: File) returns (loaded: Option<Table>)
    ensures loaded == Parse(f)
  {
    match f
    case Absent => loaded := Some(map[]);
    case Malformed => loaded := None;
    case Json(version, records) =>
      if version != VERSION || records.None? {
        loaded := None;
      } else {
        loaded := LoadRecords(records.value);
      }
  }

  /* ---- assignment keys ---- */

  predicate NulFree(s: string) {
    forall i :: 0 <= i < |s| ==> s[i] != '\0'
  }

  /** Without NUL in the instance IDs, two failures share a key only when they name the
      same assignment. */
  lemma KeyNamesAssignment(a: Failure, b: Failure)
    requires NulFree(a.instance) && NulFree(b.instance)
    ensures AssignmentKey(a) == AssignmentKey(b) <==> SameAssignment(a, b.instance, b.assignedAt)
  {
    if AssignmentKey(a) == AssignmentKey(b) {
      assert AssignmentKey(a)[|a.instance|] == '\0' && AssignmentKey(b)[|b.instance|] == '\0';
      assert forall i :: 0 <= i < |a.instance| ==> AssignmentKey(a)[i] == a.instance[i];
      assert forall i :: 0 <= i < |b.instance| ==> AssignmentKey(b)[i] == b.instance[i];
      assert |a.instance| == |b.instance|;
      assert AssignmentKey(a)[..|a.instance|] == a.instance && AssignmentKey(b)[..|b.instance|] == b.instance;
      assert AssignmentKey(a)[|a.instance| + 1..] == a.assignedAt && AssignmentKey(b)[|b.instance| + 1..] == b.assignedAt;
    }
  }

  /** Every instance ID with a NUL shares the key of another assignment, so the
      restriction cannot be weakened for single IDs. */
  lemma NulMakesKeysCollide(p: string, q: string, assignedAt: string, t: int)
    ensures var a, b := Failure(p + "\0" + q, assignedAt, t), Failure(p, q + "\0" + assignedAt, t);
      !SameAssignment(a, b.instance, b.assignedAt) && AssignmentKey(a) == AssignmentKey(b)
  {
    assert |p + "\0" + q| > |p|;
    assert (p + "\0" + q) + "\0" + assignedAt == p + "\0" + (q + "\0" + assignedAt);
  }
}
