/** The build scheduler of lib/builds/queue.go as a function on values.

    A build carries the number of its enqueue (`ticket`), and the queue carries its
    history: the builds started so far, in order, and the tickets that finished or were
    cancelled. The history decides nothing; it is what ordering and conservation are
    stated about. */
module BuildQueue {
  datatype Build = Build(id: string, key: string, ticket: nat)

  datatype Queue = Queue(
    limit: nat,
    active: map<string, Build>,
    keys: map<string, string>,
    pending: seq<Build>,
    released: set<string>,
    next: nat,
    started: seq<Build>,
    finished: set<nat>,
    cancelled: set<nat>)

  /** NewBuildQueue: a limit below one is raised to one. */
  function New(maxConcurrent: int): Queue {
    Queue(if maxConcurrent < 1 then 1 else maxConcurrent, map[], map[], [], {}, 0, [], {}, {})
  }

  predicate KeyFree(q: Queue, key: string) {
    key == "" || key !in q.keys.Values
  }

  predicate CanStart(q: Queue, key: string) {
    |q.active| < q.limit && KeyFree(q, key)
  }

  function Start(q: Queue, b: Build): Queue {
    q.(active := q.active[b.id := b],
       keys := if b.key != "" then q.keys[b.id := b.key] else q.keys,
       started := q.started + [b])
  }

  function Without(bs: seq<Build>, i: nat): seq<Build>
    requires i < |bs|
  {
    bs[..i] + bs[i + 1..]
  }

  /** Moves pending build `i` to active. */
  function Take(q: Queue, i: nat): Queue
    requires i < |q.pending|
  {
    Start(q.(pending := Without(q.pending, i)), q.pending[i])
  }

  /** The first pending build whose key is free, at or after index `i`. */
  function FirstFree(q: Queue, i: nat): (r: nat)
    requires i <= |q.pending|
    ensures i <= r <= |q.pending|
    ensures r < |q.pending| ==> KeyFree(q, q.pending[r].key)
    ensures forall j :: i <= j < r ==> !KeyFree(q, q.pending[j].key)
    decreases |q.pending| - i
  {
    if i == |q.pending| || KeyFree(q, q.pending[i].key) then i else FirstFree(q, i + 1)
  }

  /** startPendingLocked: starts free builds until the limit or a fixpoint is reached. */
  function StartPending(q: Queue): Queue
    decreases |q.pending|
  {
    if |q.active| < q.limit && FirstFree(q, 0) < |q.pending| then StartPending(Take(q, FirstFree(q, 0)))
    else q
  }

  /** The index of a pending build by ID, or the length when it is not pending. */
  function Find(bs: seq<Build>, id: string): (r: nat)
    ensures r <= |bs|
    ensures r < |bs| ==> bs[r].id == id
    ensures forall j :: 0 <= j < r ==> bs[j].id != id
  {
    if bs == [] || bs[0].id == id then 0 else 1 + Find(bs[1..], id)
  }

  /** The index of the first pending build with a given key, or the length. */
  function FindKey(bs: seq<Build>, key: string): (r: nat)
    ensures r <= |bs|
    ensures r < |bs| ==> bs[r].key == key
    ensures forall j :: 0 <= j < r ==> bs[j].key != key
  {
    if bs == [] || bs[0].key == key then 0 else 1 + FindKey(bs[1..], key)
  }

  /** EnqueueSerial: a known build keeps its place; a new one starts or joins the tail. */
  function Enqueue(q: Queue, id: string, key: string): Queue {
    if id in q.active || Find(q.pending, id) < |q.pending| then q
    else
      var b := Build(id, key, q.next);
      var r := q.(next := q.next + 1);
      if CanStart(q, key) then Start(r, b) else r.(pending := q.pending + [b])
  }

  /** Removing a finished build. */
  function Drop(q: Queue, id: string): Queue {
    q.(active := q.active - {id}, keys := q.keys - {id}, released := q.released - {id},
       finished := if id in q.active then q.finished + {q.active[id].ticket} else q.finished)
  }

  function Complete(q: Queue, id: string): Queue {
    StartPending(Drop(q, id))
  }

  /** An active build gives up its key. */
  function LetGo(q: Queue, id: string): Queue {
    q.(keys := q.keys - {id}, released := q.released + {id})
  }

  /** The part of ReleaseSerialKey before the final fill: the key is dropped and the
      oldest successor starts whether or not a slot is free. */
  function HandOver(q: Queue, id: string): Queue {
    if id !in q.keys then q
    else
      var i := FindKey(q.pending, q.keys[id]);
      if i < |q.pending| then Take(LetGo(q, id), i) else LetGo(q, id)
  }

  function Release(q: Queue, id: string): Queue {
    StartPending(HandOver(q, id))
  }

  /** Withdrawing pending build `i`. */
  function Withdraw(q: Queue, i: nat): Queue
    requires i < |q.pending|
  {
    q.(pending := Without(q.pending, i), cancelled := q.cancelled + {q.pending[i].ticket})
  }

  function Cancel(q: Queue, id: string): Queue {
    var i := Find(q.pending, id);
    if id in q.active || i == |q.pending| then q
    else Withdraw(q, i)
  }

  /* ---- what every operation keeps ---- */

  /** No two active builds hold the same key, and a keyed active build either holds its
      key or has released it. */
  ghost predicate Exclusive(q: Queue) {
    && (forall id :: id in q.active ==> q.active[id].id == id)
    && (forall id :: id in q.keys ==> id in q.active && q.keys[id] == q.active[id].key != "" && id !in q.released)
    && (forall a, b :: a in q.keys && b in q.keys && q.keys[a] == q.keys[b] ==> a == b)
    && (forall id :: id in q.active && q.active[id].key != "" ==> id in q.keys || id in q.released)
    && q.released <= q.active.Keys
  }

  ghost predicate DistinctPending(q: Queue) {
    && (forall i, j :: 0 <= i < j < |q.pending| ==> q.pending[i].id != q.pending[j].id)
    && (forall i :: 0 <= i < |q.pending| ==> q.pending[i].id !in q.active)
  }

  /** Active builds that have not released a key never exceed the limit. */
  ghost predicate Bounded(q: Queue) {
    1 <= q.limit && |q.active.Keys - q.released| <= q.limit
  }

  /** Work waits only for a slot or for a held key. */
  ghost predicate Saturated(q: Queue) {
    |q.active| >= q.limit || forall i :: 0 <= i < |q.pending| ==> !KeyFree(q, q.pending[i].key)
  }

  ghost predicate PendingTicket(q: Queue, t: nat) {
    exists i :: 0 <= i < |q.pending| && q.pending[i].ticket == t
  }

  ghost predicate ActiveTicket(q: Queue, t: nat) {
    exists id :: id in q.active && q.active[id].ticket == t
  }

  /** Every enqueue issued so far is in exactly one place. */
  ghost predicate Conserved(q: Queue) {
    && (forall t: nat :: t < q.next <==> (PendingTicket(q, t) || ActiveTicket(q, t) || t in q.finished || t in q.cancelled))
    && (forall t: nat :: PendingTicket(q, t) ==> !ActiveTicket(q, t) && t !in q.finished && t !in q.cancelled)
    && (forall t: nat :: ActiveTicket(q, t) ==> t !in q.finished && t !in q.cancelled)
    && q.finished !! q.cancelled
    && (forall a, b :: a in q.active && b in q.active && q.active[a].ticket == q.active[b].ticket ==> a == b)
  }

  /** Within one key, and within the keyless builds, starts follow enqueue order. */
  ghost predicate Ordered(q: Queue) {
    && (forall i, j :: 0 <= i < j < |q.pending| ==> q.pending[i].ticket < q.pending[j].ticket)
    && (forall i, j :: 0 <= i < j < |q.started| && q.started[i].key == q.started[j].key
          ==> q.started[i].ticket < q.started[j].ticket)
    && (forall i, j :: 0 <= i < |q.started| && 0 <= j < |q.pending| && q.started[i].key == q.pending[j].key
          ==> q.started[i].ticket < q.pending[j].ticket)
    && (forall i :: 0 <= i < |q.started| ==> q.started[i].ticket < q.next)
    && (forall i :: 0 <= i < |q.pending| ==> q.pending[i].ticket < q.next)
  }

  /** What holds in the middle of an operation. */
  ghost predicate Base(q: Queue) {
    Exclusive(q) && DistinctPending(q) && Bounded(q) && Conserved(q) && Ordered(q)
  }

  ghost predicate Inv(q: Queue) {
    Base(q) && Saturated(q)
  }

  /* ---- the elementary moves ---- */

  lemma WithoutAt(bs: seq<Build>, i: nat)
    requires i < |bs|
    ensures |Without(bs, i)| == |bs| - 1
    ensures forall j :: 0 <= j < |bs| - 1 ==> Without(bs, i)[j] == bs[if j < i then j else j + 1]
  {
  }

  /** Build `i` may start: its key is free and nothing older with its key waits. */
  ghost predicate Startable(q: Queue, i: nat) {
    && i < |q.pending|
    && KeyFree(q, q.pending[i].key)
    && (forall j :: 0 <= j < i ==> q.pending[j].key != q.pending[i].key)
    && |q.active.Keys - q.released| < q.limit
  }

  lemma TakeExclusive(q: Queue, i: nat)
    requires Exclusive(q) && DistinctPending(q) && Startable(q, i)
    ensures Exclusive(Take(q, i))
  {
    var b := q.pending[i];
    forall id | id in q.keys && b.key != "" ensures q.keys[id] != b.key {
      assert q.keys[id] in q.keys.Values;
    }
  }

  lemma TakeDistinct(q: Queue, i: nat)
    requires DistinctPending(q) && i < |q.pending|
    ensures DistinctPending(Take(q, i))
  {
    WithoutAt(q.pending, i);
  }

  lemma TakeBounded(q: Queue, i: nat)
    requires Exclusive(q) && DistinctPending(q) && Bounded(q) && Startable(q, i)
    ensures Bounded(Take(q, i))
  {
    var b, r := q.pending[i], Take(q, i);
    assert r.active.Keys - r.released == (q.active.Keys - q.released) + {b.id};
  }

  lemma TakeOrdered(q: Queue, i: nat)
    requires Ordered(q) && Startable(q, i)
    ensures Ordered(Take(q, i))
  {
    WithoutAt(q.pending, i);
  }

  lemma TakeConserved(q: Queue, i: nat)
    requires Conserved(q) && Ordered(q) && DistinctPending(q) && i < |q.pending|
    ensures Conserved(Take(q, i))
  {
    var b, r := q.pending[i], Take(q, i);
    WithoutAt(q.pending, i);
    forall t: nat ensures PendingTicket(r, t) <==> PendingTicket(q, t) && t != b.ticket {
      if PendingTicket(q, t) && t != b.ticket {
        var j :| 0 <= j < |q.pending| && q.pending[j].ticket == t;
        assert r.pending[if j < i then j else j - 1].ticket == t;
      }
    }
    forall t: nat ensures ActiveTicket(r, t) <==> ActiveTicket(q, t) || t == b.ticket {
      assert r.active[b.id].ticket == b.ticket;
      if ActiveTicket(q, t) {
        var id :| id in q.active && q.active[id].ticket == t;
        assert r.active[id].ticket == t;
      }
    }
    assert PendingTicket(q, b.ticket);
  }

  lemma TakeBase(q: Queue, i: nat)
    requires Base(q) && Startable(q, i)
    ensures Base(Take(q, i))
  {
    TakeExclusive(q, i);
    TakeDistinct(q, i);
    TakeBounded(q, i);
    TakeOrdered(q, i);
    TakeConserved(q, i);
  }

  /** The fill keeps everything and ends with nothing startable left waiting. */
  lemma {:induction false} StartPendingInv(q: Queue)
    requires Base(q)
    ensures Inv(StartPending(q))
    decreases |q.pending|
  {
    var i := FirstFree(q, 0);
    if |q.active| < q.limit && i < |q.pending| {
      hide Base;
      TakeFirstFree(q);
      StartPendingInv(Take(q, i));
    }
  }

  lemma TakeFirstFree(q: Queue)
    requires Base(q) && |q.active| < q.limit && FirstFree(q, 0) < |q.pending|
    ensures Base(Take(q, FirstFree(q, 0)))
  {
    hide Exclusive, DistinctPending, Conserved, Ordered;
    ReleasedNeverGrows(q);
    TakeBase(q, FirstFree(q, 0));
  }

  lemma PendingNotActive(q: Queue, i: nat)
    requires Base(q) && i < |q.pending|
    ensures q.pending[i].id !in q.active
  {
  }

  lemma ReleasedNeverGrows(q: Queue)
    ensures |q.active.Keys - q.released| <= |q.active|
  {
    assert q.active.Keys == (q.active.Keys - q.released) + (q.active.Keys * q.released);
  }

  /* ---- the operations ---- */

  lemma NewInv(maxConcurrent: int)
    ensures Inv(New(maxConcurrent))
  {
  }

  /** In a saturated queue a build that can start at once is not overtaking anyone. */
  lemma EnqueueInv(q: Queue, id: string, key: string)
    requires Inv(q)
    ensures Inv(Enqueue(q, id, key))
  {
    if !(id in q.active || Find(q.pending, id) < |q.pending|) {
      var b := Build(id, key, q.next);
      var r := Append(q, b);
      assert b.id !in q.keys by { hide DistinctPending, Conserved, Bounded, Ordered; }
      hide Exclusive, DistinctPending, Conserved, Bounded, Ordered;
      AppendBase(q, b);
      if CanStart(q, key) {
        assert Startable(r, |q.pending|) by { ReleasedNeverGrows(q); }
        TakeBase(r, |q.pending|);
        StartAtOnce(q, b);
      } else {
        AppendSaturated(q, b);
      }
    }
  }

  function Append(q: Queue, b: Build): Queue {
    q.(next := q.next + 1, pending := q.pending + [b])
  }

  lemma AppendSaturated(q: Queue, b: Build)
    requires Saturated(q) && !CanStart(q, b.key)
    ensures Saturated(Append(q, b))
  {
  }

  lemma StartAtOnce(q: Queue, b: Build)
    requires Saturated(q) && CanStart(q, b.key) && b.id !in q.keys
    ensures Take(Append(q, b), |q.pending|) == Start(q.(next := q.next + 1), b)
    ensures Saturated(Start(q.(next := q.next + 1), b))
  {
    var r := q.(next := q.next + 1);
    assert Without(Append(q, b).pending, |q.pending|) == q.pending;
    forall i | 0 <= i < |r.pending| ensures !KeyFree(Start(r, b), r.pending[i].key) {
      assert r.pending[i].key in r.keys.Values;
      var id :| id in r.keys && r.keys[id] == r.pending[i].key;
      assert Start(r, b).keys[id] == r.pending[i].key;
    }
  }

  lemma AppendBase(q: Queue, b: Build)
    requires Base(q) && b.ticket == q.next && b.id !in q.active
    requires forall i :: 0 <= i < |q.pending| ==> q.pending[i].id != b.id
    ensures Base(Append(q, b))
  {
    AppendConserved(q, b);
    hide Conserved;
  }

  lemma AppendConserved(q: Queue, b: Build)
    requires Conserved(q) && b.ticket == q.next
    ensures Conserved(Append(q, b))
  {
    var r := Append(q, b);
    forall t: nat ensures PendingTicket(r, t) <==> PendingTicket(q, t) || t == b.ticket {
      assert r.pending[|q.pending|].ticket == b.ticket;
      if PendingTicket(q, t) {
        var j :| 0 <= j < |q.pending| && q.pending[j].ticket == t;
        assert r.pending[j].ticket == t;
      }
    }
    assert forall t: nat :: ActiveTicket(r, t) == ActiveTicket(q, t);
  }

  lemma DropConserved(q: Queue, id: string)
    requires Conserved(q)
    ensures Conserved(Drop(q, id))
  {
    var r := Drop(q, id);
    assert forall t: nat :: PendingTicket(r, t) == PendingTicket(q, t);
    if id in q.active {
      assert ActiveTicket(q, q.active[id].ticket);
      forall t: nat ensures ActiveTicket(r, t) <==> ActiveTicket(q, t) && t != q.active[id].ticket {
        if ActiveTicket(q, t) && t != q.active[id].ticket {
          var other :| other in q.active && q.active[other].ticket == t;
          assert r.active[other].ticket == t;
        }
      }
    } else {
      assert r.active == q.active;
      assert forall t: nat :: ActiveTicket(r, t) == ActiveTicket(q, t);
    }
  }

  lemma DropBounded(q: Queue, id: string)
    requires Bounded(q)
    ensures Bounded(Drop(q, id))
  {
    var r := Drop(q, id);
    assert r.active.Keys - r.released <= q.active.Keys - q.released;
    SubsetSize(r.active.Keys - r.released, q.active.Keys - q.released);
  }

  lemma SubsetSize<T>(a: set<T>, b: set<T>)
    requires a <= b
    ensures |a| <= |b|
  {
    assert b == a + (b - a);
  }

  lemma DropExclusive(q: Queue, id: string)
    requires Exclusive(q)
    ensures Exclusive(Drop(q, id))
  {
  }

  lemma DropBase(q: Queue, id: string)
    requires Base(q)
    ensures Base(Drop(q, id))
  {
    var r := Drop(q, id);
    assert DistinctPending(r) && Ordered(r) by { hide Exclusive, Conserved, Bounded, Saturated; }
    hide Exclusive, DistinctPending, Conserved, Ordered, Bounded, Saturated;
    DropExclusive(q, id);
    DropConserved(q, id);
    DropBounded(q, id);
  }

  lemma CompleteInv(q: Queue, id: string)
    requires Inv(q)
    ensures Inv(Complete(q, id))
  {
    hide Base;
    DropBase(q, id);
    StartPendingInv(Drop(q, id));
  }

  lemma LetGoExclusive(q: Queue, id: string)
    requires Exclusive(q) && id in q.keys
    ensures Exclusive(LetGo(q, id))
    ensures KeyFree(LetGo(q, id), q.keys[id])
  {
  }

  lemma LetGoBounded(q: Queue, id: string)
    requires Bounded(q) && id in q.active && id !in q.released
    ensures var r := LetGo(q, id); Bounded(r) && |r.active.Keys - r.released| < r.limit
  {
    var r := LetGo(q, id);
    assert q.active.Keys - q.released == (r.active.Keys - r.released) + {id};
  }

  lemma LetGoConserved(q: Queue, id: string)
    requires Conserved(q)
    ensures Conserved(LetGo(q, id))
  {
    var r := LetGo(q, id);
    assert forall t: nat :: PendingTicket(r, t) == PendingTicket(q, t) && ActiveTicket(r, t) == ActiveTicket(q, t);
  }

  lemma LetGoBase(q: Queue, id: string)
    requires Base(q) && id in q.keys
    ensures Base(LetGo(q, id))
    ensures var r := LetGo(q, id); KeyFree(r, q.keys[id]) && |r.active.Keys - r.released| < r.limit
  {
    var r := LetGo(q, id);
    assert DistinctPending(r) && Ordered(r) by { hide Exclusive, Conserved, Bounded; }
    assert id in q.active && id !in q.released by { hide DistinctPending, Conserved, Bounded, Ordered; }
    hide Exclusive, DistinctPending, Conserved, Bounded, Ordered;
    LetGoExclusive(q, id);
    LetGoBounded(q, id);
    LetGoConserved(q, id);
  }

  /** Handing a key over keeps the bound because the releasing build stops counting. */
  lemma HandOverBase(q: Queue, id: string)
    requires Base(q)
    ensures Base(HandOver(q, id))
  {
    hide Base;
    if id in q.keys {
      LetGoBase(q, id);
      var i := FindKey(q.pending, q.keys[id]);
      if i < |q.pending| {
        TakeBase(LetGo(q, id), i);
      }
    }
  }

  lemma ReleaseInv(q: Queue, id: string)
    requires Inv(q)
    ensures Inv(Release(q, id))
  {
    hide Base;
    HandOverBase(q, id);
    StartPendingInv(HandOver(q, id));
  }

  lemma WithdrawKeepsOrder(q: Queue, i: nat)
    requires i < |q.pending| && DistinctPending(q) && Ordered(q) && Saturated(q)
    ensures DistinctPending(Withdraw(q, i)) && Ordered(Withdraw(q, i)) && Saturated(Withdraw(q, i))
  {
    WithoutAt(q.pending, i);
  }

  lemma CancelInv(q: Queue, id: string)
    requires Inv(q)
    ensures Inv(Cancel(q, id))
  {
    var i := Find(q.pending, id);
    if !(id in q.active || i == |q.pending|) {
      assert Exclusive(Withdraw(q, i)) && Bounded(Withdraw(q, i))
        by { hide DistinctPending, Ordered, Saturated, Conserved; }
      hide Exclusive, Bounded, DistinctPending, Ordered, Saturated, Conserved;
      WithdrawKeepsOrder(q, i);
      WithdrawConserved(q, i);
    }
  }

  lemma WithdrawConserved(q: Queue, i: nat)
    requires Conserved(q) && Ordered(q) && i < |q.pending|
    ensures Conserved(Withdraw(q, i))
  {
    var b := q.pending[i];
    var r := Withdraw(q, i);
    WithoutAt(q.pending, i);
    forall t: nat ensures PendingTicket(r, t) <==> PendingTicket(q, t) && t != b.ticket {
      if PendingTicket(q, t) && t != b.ticket {
        var j :| 0 <= j < |q.pending| && q.pending[j].ticket == t;
        assert r.pending[if j < i then j else j - 1].ticket == t;
      }
    }
    assert PendingTicket(q, b.ticket);
    assert forall t: nat :: ActiveTicket(r, t) == ActiveTicket(q, t);
  }

  /* ---- whole runs ---- */

  datatype Op = EnqueueOp(id: string, key: string) | CompleteOp(id: string) | ReleaseOp(id: string) | CancelOp(id: string)

  function Apply(q: Queue, op: Op): Queue {
    match op
    case EnqueueOp(id, key) => Enqueue(q, id, key)
    case CompleteOp(id) => Complete(q, id)
    case ReleaseOp(id) => Release(q, id)
    case CancelOp(id) => Cancel(q, id)
  }

  function Run(q: Queue, ops: seq<Op>): Queue
    decreases |ops|
  {
    if ops == [] then q else Run(Apply(q, ops[0]), ops[1..])
  }

  lemma ApplyInv(q: Queue, op: Op)
    requires Inv(q)
    ensures Inv(Apply(q, op))
  {
    hide Inv;
    match op
    case EnqueueOp(id, key) => EnqueueInv(q, id, key);
    case CompleteOp(id) => CompleteInv(q, id);
    case ReleaseOp(id) => ReleaseInv(q, id);
    case CancelOp(id) => CancelInv(q, id);
  }

  /** Exclusion, the bound, saturation, conservation and order hold after every run. */
  lemma {:induction false} RunInv(q: Queue, ops: seq<Op>)
    requires Inv(q)
    ensures Inv(Run(q, ops))
    decreases |ops|
  {
    hide Inv;
    if ops != [] {
      ApplyInv(q, ops[0]);
      RunInv(Apply(q, ops[0]), ops[1..]);
    }
  }

  /** History only grows: what has started, finished or been cancelled stays so. */
  lemma {:induction false} RunHistoryGrows(q: Queue, ops: seq<Op>)
    ensures q.started <= Run(q, ops).started
    ensures q.finished <= Run(q, ops).finished && q.cancelled <= Run(q, ops).cancelled
    decreases |ops|
  {
    if ops != [] {
      ApplyHistory(q, ops[0]);
      hide Apply;
      RunHistoryGrows(Apply(q, ops[0]), ops[1..]);
    }
  }

  lemma ApplyHistory(q: Queue, op: Op)
    ensures q.started <= Apply(q, op).started
    ensures q.finished <= Apply(q, op).finished && q.cancelled <= Apply(q, op).cancelled
  {
    hide StartPending;
    match op
    case EnqueueOp(id, key) =>
    case CompleteOp(id) => StartPendingHistory(Drop(q, id));
    case ReleaseOp(id) => StartPendingHistory(HandOver(q, id));
    case CancelOp(id) =>
  }

  lemma {:induction false} StartPendingHistory(q: Queue)
    ensures q.started <= StartPending(q).started
    ensures StartPending(q).finished == q.finished && StartPending(q).cancelled == q.cancelled
    decreases |q.pending|
  {
    var i := FirstFree(q, 0);
    if |q.active| < q.limit && i < |q.pending| {
      StartPendingHistory(Take(q, i));
    }
  }

  /* ---- draining ---- */

  function Size(q: Queue): nat {
    |q.active| + |q.pending|
  }

  /** Waiting work implies running work. */
  lemma PendingImpliesActive(q: Queue)
    requires Inv(q) && q.pending != []
    ensures q.active != map[]
  {
    assert !KeyFree(q, q.pending[0].key) || |q.active| >= 1;
    if q.pending[0].key in q.keys.Values {
      var id :| id in q.keys && q.keys[id] == q.pending[0].key;
      assert id in q.active;
    }
  }

  lemma {:induction false} StartPendingSize(q: Queue)
    requires DistinctPending(q)
    ensures Size(StartPending(q)) == Size(q)
    decreases |q.pending|
  {
    var i := FirstFree(q, 0);
    if |q.active| < q.limit && i < |q.pending| {
      TakeDistinct(q, i);
      WithoutAt(q.pending, i);
      assert Take(q, i).active.Keys == q.active.Keys + {q.pending[i].id};
      StartPendingSize(Take(q, i));
    }
  }

  lemma CompleteShrinks(q: Queue, id: string)
    requires DistinctPending(q) && id in q.active
    ensures Size(Complete(q, id)) == Size(q) - 1
  {
    assert q.active.Keys == Drop(q, id).active.Keys + {id};
    StartPendingSize(Drop(q, id));
  }

  /** A drain: each ID in turn is active when it completes. */
  ghost predicate Drains(q: Queue, ids: seq<string>)
    decreases |ids|
  {
    ids == [] || (ids[0] in q.active && Drains(Complete(q, ids[0]), ids[1..]))
  }

  ghost function Drained(q: Queue, ids: seq<string>): Queue
    decreases |ids|
  {
    if ids == [] then q else Drained(Complete(q, ids[0]), ids[1..])
  }

  /** Every drain takes one step per build, and it can be continued until nothing is
      left: the queue never gets stuck with work waiting. */
  lemma {:induction false} DrainTerminates(q: Queue, ids: seq<string>)
    requires Inv(q) && Drains(q, ids)
    ensures Inv(Drained(q, ids)) && Size(Drained(q, ids)) == Size(q) - |ids|
    ensures |ids| < Size(q) ==> Drained(q, ids).active != map[]
    ensures |ids| == Size(q) ==> Drained(q, ids).active == map[] && Drained(q, ids).pending == []
    decreases |ids|
  {
    if ids != [] {
      CompleteInv(q, ids[0]);
      CompleteShrinks(q, ids[0]);
      hide Inv;
      DrainTerminates(Complete(q, ids[0]), ids[1..]);
    } else if q.pending != [] {
      PendingImpliesActive(q);
    }
  }

  lemma {:induction false} RunConcat(q: Queue, a: seq<Op>, b: seq<Op>)
    ensures Run(q, a + b) == Run(Run(q, a), b)
    decreases |a|
  {
    if a == [] {
      assert a + b == b;
    } else {
      assert (a + b)[1..] == a[1..] + b;
      RunConcat(Apply(q, a[0]), a[1..], b);
    }
  }
}
