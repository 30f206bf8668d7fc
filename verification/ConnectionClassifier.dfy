/** Which TCP flows keep an instance awake: lib/autostandby/classifier.go, the TCP states of
    types.go, and the snapshot and event paths of controller.go that must agree. */
module ConnectionClassifier {
  /** A parsed address; the zero netip.Addr is `None`. */
  type Addr = nat

  datatype Option<T> = None | Some(value: T)

  /** A CIDR block covers a run of addresses. */
  datatype Prefix = Prefix(first: Addr, last: Addr)

  datatype Policy = Policy(timeout: int, ignorePorts: set<nat>, ignoreSources: seq<Prefix>)

  datatype Key = Key(src: Option<Addr>, srcPort: nat, dst: Option<Addr>, dstPort: nat)

  datatype TCP = NoState | SynSent | SynRecv | Established | FinWait | CloseWait | LastAck | TimeWait | Close | Listen | Ignore | Retrans

  datatype Connection = Connection(key: Key, tcp: TCP)

  predicate Active(s: TCP) {
    s.SynSent? || s.SynRecv? || s.Established? || s.FinWait? || s.CloseWait? || s.LastAck?
  }

  predicate Covers(p: Prefix, a: Addr) { p.first <= a <= p.last }

  predicate IgnoredSource(p: Policy, a: Addr) {
    exists i :: 0 <= i < |p.ignoreSources| && Covers(p.ignoreSources[i], a)
  }

  /** The flow is inbound traffic of the instance at `ip` that its policy does not ignore. */
  predicate Inbound(ip: Addr, p: Policy, k: Key) {
    && k.dst == Some(ip)
    && k.dstPort !in p.ignorePorts
    && k.src.Some?
    && !IgnoredSource(p, k.src.value)
  }

  predicate KeepsAwake(ip: Addr, p: Policy, c: Connection) { Active(c.tcp) && Inbound(ip, p, c.key) }

  /** matchesInboundConnectionForEvent, up to the parsing of the instance's address. */
  method MatchesForEvent(ip: Option<Addr>, p: Policy, c: Connection) returns (r: bool)
    ensures r <==> ip.Some? && Inbound(ip.value, p, c.key)
  {
    if ip.None? || c.key.dst.None? || c.key.dst != ip {
      return false;
    }
    if c.key.dstPort in p.ignorePorts {
      return false;
    }
    if c.key.src.None? {
      return false;
    }
    for i := 0 to |p.ignoreSources|
      invariant forall j :: 0 <= j < i ==> !Covers(p.ignoreSources[j], c.key.src.value)
    {
      if Covers(p.ignoreSources[i], c.key.src.value) {
        return false;
      }
    }
    return true;
  }

  /** matchesInboundConnection. */
  method MatchesInbound(ip: Addr, p: Option<Policy>, c: Connection) returns (r: bool)
    ensures r <==> p.Some? && KeepsAwake(ip, p.value, c)
  {
    if p.None? {
      return false;
    }
    if !Active(c.tcp) {
      return false;
    }
    r := MatchesForEvent(Some(ip), p.value, c);
  }

  /** The flows of a snapshot that keep the instance awake. */
  ghost predicate IsMatching(ip: Addr, p: Policy, conns: seq<Connection>, s: set<Key>) {
    && (forall c :: c in conns && KeepsAwake(ip, p, c) ==> c.key in s)
    && (forall k :: k in s ==> exists c :: c in conns && KeepsAwake(ip, p, c) && c.key == k)
  }

  function Matching(ip: Addr, p: Policy, conns: seq<Connection>): (s: set<Key>)
    ensures IsMatching(ip, p, conns, s)
  {
    if conns == [] then {}
    else
      var rest := Matching(ip, p, conns[..|conns| - 1]);
      var c := conns[|conns| - 1];
      assert forall d :: d in conns <==> d in conns[..|conns| - 1] || d == c;
      if KeepsAwake(ip, p, c) then rest + {c.key} else rest
  }

  /** matchingConnections. */
  method MatchingConnections(ip: Option<Addr>, p: Policy, conns: seq<Connection>) returns (r: Option<set<Key>>)
    ensures r == if ip.Some? then Some(Matching(ip.value, p, conns)) else None
  {
    if ip.None? {
      return None;
    }
    var keys: set<Key> := {};
    for i := 0 to |conns|
      invariant keys == Matching(ip.value, p, conns[..i])
    {
      var m := MatchesInbound(ip.value, Some(p), conns[i]);
      if m {
        keys := keys + {conns[i].key};
      }
      assert conns[..i + 1][..i] == conns[..i];
    }
    assert conns[..|conns|] == conns;
    return Some(keys);
  }

  /** ActiveInboundCount, for a compiled policy: counts flows, not keys. */
  method ActiveInboundCount(ip: Addr, p: Policy, conns: seq<Connection>) returns (n: nat)
    ensures n == 0 <==> Matching(ip, p, conns) == {}
    ensures n <= |conns|
  {
    n := 0;
    for i := 0 to |conns|
      invariant n <= i
      invariant n == 0 <==> forall j :: 0 <= j < i ==> !KeepsAwake(ip, p, conns[j])
    {
      var m := MatchesInbound(ip, Some(p), conns[i]);
      if m {
        n := n + 1;
      }
    }
    if Matching(ip, p, conns) != {} {
      var k :| k in Matching(ip, p, conns);
    }
  }

  /* ---- the event index ---- */

  /** A conntrack event: a flow appears or changes state, or it is gone. */
  datatype Event = Seen(conn: Connection) | Gone(conn: Connection)

  /** The kernel's table, by key. */
  type Table = map<Key, TCP>

  function TableStep(t: Table, e: Event): Table {
    match e
    case Seen(c) => t[c.key := c.tcp]
    case Gone(c) => t - {c.key}
  }

  function TableAfter(t: Table, es: seq<Event>): Table {
    if es == [] then t else TableStep(TableAfter(t, es[..|es| - 1]), es[|es| - 1])
  }

  /** How an event changes the set of flows that the controller believes to be active. */
  function IndexStep(ip: Option<Addr>, p: Policy, active: set<Key>, e: Event): set<Key> {
    match e
    case Seen(c) =>
      if !(ip.Some? && Inbound(ip.value, p, c.key)) then active
      else if Active(c.tcp) then active + {c.key}
      else active - {c.key}
    case Gone(c) => active - {c.key}
  }

  function IndexAfter(ip: Option<Addr>, p: Policy, active: set<Key>, es: seq<Event>): set<Key> {
    if es == [] then active else IndexStep(ip, p, IndexAfter(ip, p, active, es[..|es| - 1]), es[|es| - 1])
  }

  /** The snapshot lists the table: every flow once, in any order. */
  ghost predicate Lists(conns: seq<Connection>, t: Table) {
    && (forall c :: c in conns ==> c.key in t && t[c.key] == c.tcp)
    && (forall k :: k in t ==> Connection(k, t[k]) in conns)
  }

  ghost predicate IndexOf(ip: Addr, p: Policy, t: Table, active: set<Key>) {
    forall k :: k in active <==> k in t && KeepsAwake(ip, p, Connection(k, t[k]))
  }

  lemma SnapshotIsIndex(ip: Addr, p: Policy, t: Table, conns: seq<Connection>)
    requires Lists(conns, t)
    ensures IndexOf(ip, p, t, Matching(ip, p, conns))
  {
    var s := Matching(ip, p, conns);
    forall k
      ensures k in s <==> k in t && KeepsAwake(ip, p, Connection(k, t[k]))
    {
      if k in s {
        var c :| c in conns && KeepsAwake(ip, p, c) && c.key == k;
        assert c == Connection(k, t[k]);
      }
    }
  }

  lemma IndexIsUnique(ip: Addr, p: Policy, t: Table, a: set<Key>, b: set<Key>)
    requires IndexOf(ip, p, t, a) && IndexOf(ip, p, t, b)
    ensures a == b
  {}

  lemma {:induction false} IndexFollowsTable(ip: Addr, p: Policy, t: Table, active: set<Key>, es: seq<Event>)
    requires IndexOf(ip, p, t, active)
    ensures IndexOf(ip, p, TableAfter(t, es), IndexAfter(Some(ip), p, active, es))
    decreases |es|
  {
    if es != [] {
      IndexFollowsTable(ip, p, t, active, es[..|es| - 1]);
    }
  }

  /** The event path refines the snapshot path: seeded from a snapshot and then fed every event
      since, the index is the set a fresh snapshot would give. */
  lemma EventIndexRefinesSnapshot(ip: Addr, p: Policy, t: Table, seed: seq<Connection>, es: seq<Event>, fresh_: seq<Connection>)
    requires Lists(seed, t) && Lists(fresh_, TableAfter(t, es))
    ensures IndexAfter(Some(ip), p, Matching(ip, p, seed), es) == Matching(ip, p, fresh_)
  {
    SnapshotIsIndex(ip, p, t, seed);
    IndexFollowsTable(ip, p, t, Matching(ip, p, seed), es);
    SnapshotIsIndex(ip, p, TableAfter(t, es), fresh_);
    IndexIsUnique(ip, p, TableAfter(t, es), IndexAfter(Some(ip), p, Matching(ip, p, seed), es), Matching(ip, p, fresh_));
  }
}
