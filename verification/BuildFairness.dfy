/** How long a build waits in the queue of lib/builds/queue.go: first for the builds before it with
    its key, if it has one, and then for a slot. While it waits for a slot only a key handed over past
    the limit lets a later build start first; every completion otherwise brings it nearer. Without a
    bound on the hand-overs there is no bound on the wait. */
module BuildFairness {
  import opened BuildQueue

  /** The build waits for a slot only: it has no key, or its key is free and it is the first to
      want it. */
  ghost predicate Waits(q: Queue, w: Build) {
    && w in q.pending && KeyFree(q, w.key)
    && (w.key != "" ==>
          forall j :: 0 <= j < |q.pending| && q.pending[j].ticket < w.ticket ==> q.pending[j].key != w.key)
  }

  function Position(q: Queue, w: Build): nat { Find(q.pending, w.id) }

  /** How many completions the waiting build has ahead of it: the builds before it, and those
      running beyond the limit. */
  function Ahead(q: Queue, w: Build): int { Position(q, w) + |q.active| - q.limit }

  lemma {:induction false} FindAt(bs: seq<Build>, i: nat)
    requires i < |bs| && forall j :: 0 <= j < i ==> bs[j].id != bs[i].id
    ensures Find(bs, bs[i].id) == i
  {
    if i > 0 {
      assert bs[1..][i - 1] == bs[i];
      FindAt(bs[1..], i - 1);
    }
  }

  /** Then every slot is taken. */
  lemma WaitIsFull(q: Queue, w: Build)
    requires Inv(q) && Waits(q, w)
    ensures |q.active| >= q.limit && Position(q, w) < |q.pending| && q.pending[Position(q, w)] == w
    ensures Ahead(q, w) >= 0
  {
    hide Exclusive, Bounded, Conserved, Ordered;
    var i :| 0 <= i < |q.pending| && q.pending[i] == w;
    FindAt(q.pending, i);
  }

  /** The position of a waiting build once build `i` has left the queue. */
  lemma PositionWithout(bs: seq<Build>, i: nat, p: nat)
    requires i < |bs| && p < |bs| && i != p && forall j, k :: 0 <= j < k < |bs| ==> bs[j].id != bs[k].id
    ensures bs[p] in Without(bs, i)
    ensures Find(Without(bs, i), bs[p].id) == if i < p then p - 1 else p
  {
    WithoutAt(bs, i);
    var r, n := Without(bs, i), if i < p then p - 1 else p;
    assert r[n] == bs[p];
    forall j | 0 <= j < n
      ensures r[j].id != r[n].id
    {
      assert r[j] == bs[if j < i then j else j + 1];
    }
    FindAt(r, n);
  }

  lemma InQueueOrder(q: Queue)
    requires Inv(q)
    ensures forall j, k :: 0 <= j < k < |q.pending| ==>
      q.pending[j].id != q.pending[k].id && q.pending[j].ticket < q.pending[k].ticket
  {
    hide Exclusive, Bounded, Conserved, Saturated;
  }

  lemma NotActive(q: Queue, i: nat)
    requires Inv(q) && i < |q.pending|
    ensures q.pending[i].id !in q.active
  {
    hide Exclusive, Bounded, Conserved, Ordered, Saturated;
  }

  lemma NothingStarts(q: Queue)
    requires |q.active| >= q.limit
    ensures StartPending(q) == q
  {}

  /** Whether the operation takes a running build out. */
  predicate Completes(q: Queue, op: Op) { op.CompleteOp? && op.id in q.active }

  /** Whether the operation hands a key to a build that was enqueued after `w`. */
  predicate HandsPast(q: Queue, op: Op, w: Build) {
    op.ReleaseOp? && op.id in q.keys &&
    var i := FindKey(q.pending, q.keys[op.id]);
    i < |q.pending| && q.pending[i].ticket > w.ticket
  }

  /** What one operation does to a waiting build: it starts, or still waits with so many ahead; and
      a later build starts before it exactly when a key is handed past it. */
  ghost predicate Effect(q: Queue, op: Op, w: Build, r: Queue) {
    && q.started <= r.started
    && (if w in r.pending
        then Ahead(r, w) <= Ahead(q, w) - (if Completes(q, op) then 1 else 0) + (if HandsPast(q, op, w) then 1 else 0)
        else w in r.started)
    && (w in r.pending ==>
          ((exists k :: |q.started| <= k < |r.started| && r.started[k].ticket > w.ticket) <==> HandsPast(q, op, w)))
  }

  lemma EnqueueEffect(q: Queue, id: string, key: string, w: Build)
    requires Inv(q) && Waits(q, w)
    ensures Effect(q, EnqueueOp(id, key), w, Enqueue(q, id, key))
  {
    hide Inv;
    WaitIsFull(q, w);
    InQueueOrder(q);
    var r := Enqueue(q, id, key);
    assert r.pending[Position(q, w)] == w;
    FindAt(r.pending, Position(q, w));
  }

  lemma CancelEffect(q: Queue, id: string, w: Build)
    requires Inv(q) && Waits(q, w) && id != w.id
    ensures Effect(q, CancelOp(id), w, Cancel(q, id))
  {
    hide Inv;
    WaitIsFull(q, w);
    InQueueOrder(q);
    var i := Find(q.pending, id);
    if !(id in q.active || i == |q.pending|) {
      PositionWithout(q.pending, i, Position(q, w));
    }
  }

  lemma DropSize(q: Queue, id: string)
    ensures |Drop(q, id).active| == if id in q.active then |q.active| - 1 else |q.active|
  {
    if id in q.active {
      assert q.active.Keys == Drop(q, id).active.Keys + {id};
      assert |q.active| == |q.active.Keys| && |Drop(q, id).active| == |Drop(q, id).active.Keys|;
    } else {
      assert Drop(q, id).active == q.active;
    }
  }

  lemma TakeSize(q: Queue, i: nat)
    requires i < |q.pending| && q.pending[i].id !in q.active
    ensures |Take(q, i).active| == |q.active| + 1
  {
    assert Take(q, i).active.Keys == q.active.Keys + {q.pending[i].id};
  }

  lemma DropFrees(q: Queue, id: string, key: string)
    requires KeyFree(q, key)
    ensures KeyFree(Drop(q, id), key)
  {
    var d := Drop(q, id);
    forall v | v in d.keys.Values
      ensures v in q.keys.Values
    {
      var a :| a in d.keys && d.keys[a] == v;
      assert q.keys[a] == v;
    }
  }

  /** When a slot comes free the first build whose key is free starts, and then the queue is full again. */
  lemma CompletionTakes(q: Queue, id: string, w: Build)
    requires Inv(q) && Waits(q, w) && |Drop(q, id).active| < q.limit
    ensures var d := Drop(q, id);
      var i := FirstFree(d, 0);
      && i <= Position(q, w) < |q.pending|
      && Complete(q, id) == Take(d, i) && |Take(d, i).active| == |d.active| + 1
      && Take(d, i).started == q.started + [q.pending[i]] && Take(d, i).pending == Without(q.pending, i)
      && Take(d, i).limit == q.limit
  {
    hide Inv;
    WaitIsFull(q, w);
    var d := Drop(q, id);
    var i := FirstFree(d, 0);
    DropFrees(q, id, w.key);
    assert KeyFree(d, d.pending[Position(q, w)].key);
    NotActive(q, i);
    DropSize(q, id);
    TakeSize(d, i);
    NothingStarts(Take(d, i));
  }

  lemma CompleteEffect(q: Queue, id: string, w: Build)
    requires Inv(q) && Waits(q, w)
    ensures Effect(q, CompleteOp(id), w, Complete(q, id))
  {
    hide Inv, Complete, KeyFree;
    WaitIsFull(q, w);
    DropSize(q, id);
    var d, p := Drop(q, id), Position(q, w);
    if |d.active| >= q.limit {
      NothingStarts(d);
      assert Complete(q, id) == d by { CompleteIs(q, id); }
    } else {
      CompletionTakes(q, id, w);
      InQueueOrder(q);
      hide Take, FirstFree, Effect;
      TakenEffect(q, CompleteOp(id), w, Complete(q, id), FirstFree(d, 0));
    }
  }

  lemma TakenEffect(q: Queue, op: Op, w: Build, r: Queue, i: nat)
    requires op.CompleteOp? && Waits(q, w) && i <= Position(q, w) < |q.pending| && q.pending[Position(q, w)] == w
    requires forall j, k :: 0 <= j < k < |q.pending| ==>
      q.pending[j].id != q.pending[k].id && q.pending[j].ticket < q.pending[k].ticket
    requires r.started == q.started + [q.pending[i]] && r.pending == Without(q.pending, i)
    requires |r.active| == |q.active| && r.limit == q.limit
    ensures Effect(q, op, w, r)
  {
    var p := Position(q, w);
    WithoutAt(q.pending, i);
    if i != p {
      PositionWithout(q.pending, i, p);
      assert q.pending[i].ticket < w.ticket;
      forall k | |q.started| <= k < |r.started|
        ensures r.started[k].ticket < w.ticket
      {
      }
    } else {
      assert r.started[|q.started|] == w;
    }
  }

  lemma CompleteIs(q: Queue, id: string)
    ensures Complete(q, id) == StartPending(Drop(q, id))
  {}

  lemma ReleaseEffect(q: Queue, id: string, w: Build)
    requires Inv(q) && Waits(q, w)
    ensures Effect(q, ReleaseOp(id), w, Release(q, id))
  {
    hide Inv;
    WaitIsFull(q, w);
    InQueueOrder(q);
    var p := Position(q, w);
    if id !in q.keys {
      NothingStarts(q);
    } else {
      var i, l := FindKey(q.pending, q.keys[id]), LetGo(q, id);
      KeyHeld(q, id);
      assert q.keys[id] in q.keys.Values;
      if i < |q.pending| {
        NotActive(q, i);
        TakeSize(l, i);
        NothingStarts(Take(l, i));
        PositionWithout(q.pending, i, p);
        var r := Take(l, i);
        assert r.started == q.started + [q.pending[i]];
        assert r.started[|q.started|] == q.pending[i];
      } else {
        NothingStarts(l);
      }
    }
  }

  lemma KeyHeld(q: Queue, id: string)
    requires Inv(q) && id in q.keys
    ensures q.keys[id] != ""
  {
    hide DistinctPending, Bounded, Conserved, Ordered, Saturated;
  }

  lemma ApplyEffect(q: Queue, op: Op, w: Build)
    requires Inv(q) && Waits(q, w) && op != CancelOp(w.id)
    ensures Effect(q, op, w, Apply(q, op))
  {
    hide Inv, Effect, Waits;
    match op
    case EnqueueOp(id, key) => EnqueueEffect(q, id, key, w);
    case CompleteOp(id) => CompleteEffect(q, id, w);
    case ReleaseOp(id) => ReleaseEffect(q, id, w);
    case CancelOp(id) => CancelEffect(q, id, w);
  }

  /** A build that goes on waiting for a slot is overtaken by a later one in an operation if and
      only if that operation hands a key past it. */
  lemma OvertakenIff(q: Queue, op: Op, w: Build)
    requires Inv(q) && Waits(q, w) && op != CancelOp(w.id) && w in Apply(q, op).pending
    ensures (exists k :: |q.started| <= k < |Apply(q, op).started| && Apply(q, op).started[k].ticket > w.ticket)
            <==> HandsPast(q, op, w)
  {
    hide Inv, Apply;
    ApplyEffect(q, op, w);
  }

  /** The completion of a running build starts the head of the queue exactly when no build runs
      beyond the limit. */
  lemma CompletionStartsHead(q: Queue, id: string)
    requires Inv(q) && id in q.active && q.pending != [] && KeyFree(Drop(q, id), q.pending[0].key) && |q.active| >= q.limit
    ensures Complete(q, id).started == (if |q.active| <= q.limit then q.started + [q.pending[0]] else q.started)
  {
    hide Inv;
    DropSize(q, id);
    var d := Drop(q, id);
    NotActive(q, 0);
    if |q.active| <= q.limit {
      assert FirstFree(d, 0) == 0;
      TakeSize(d, 0);
      NothingStarts(Take(d, 0));
    } else {
      NothingStarts(d);
    }
  }

  /* ---- runs ---- */

  function Completions(q: Queue, ops: seq<Op>): nat
    decreases |ops|
  {
    if ops == [] then 0
    else (if Completes(q, ops[0]) then 1 else 0) + Completions(Apply(q, ops[0]), ops[1..])
  }

  function HandOvers(q: Queue, ops: seq<Op>, w: Build): nat
    decreases |ops|
  {
    if ops == [] then 0
    else (if HandsPast(q, ops[0], w) then 1 else 0) + HandOvers(Apply(q, ops[0]), ops[1..], w)
  }

  /** Bounded wait, over every run: a build that waits for a slot and is not cancelled has started
      once there have been more completions than builds ahead of it and keys handed past it
      together. */
  lemma {:induction false} BoundedWait(q: Queue, ops: seq<Op>, w: Build)
    requires Inv(q) && Waits(q, w) && CancelOp(w.id) !in ops
    ensures w in Run(q, ops).started ||
            (Waits(Run(q, ops), w) && Ahead(Run(q, ops), w) <= Ahead(q, w) - Completions(q, ops) + HandOvers(q, ops, w))
    ensures Completions(q, ops) > Ahead(q, w) + HandOvers(q, ops, w) ==> w in Run(q, ops).started
    decreases |ops|
  {
    hide Inv, Effect, Apply, Completes, HandsPast, Ahead, Waits;
    if ops == [] {
      WaitIsFull(q, w);
    } else {
      var r := Apply(q, ops[0]);
      ApplyInv(q, ops[0]);
      ApplyEffect(q, ops[0], w);
      EffectOn(q, ops[0], w, r);
      if w in r.pending {
        StillWaits(q, ops[0], w);
        BoundedWait(r, ops[1..], w);
      } else {
        RunHistoryGrows(r, ops[1..]);
      }
    }
    if Waits(Run(q, ops), w) {
      RunInv(q, ops);
      WaitIsFull(Run(q, ops), w);
    }
  }

  lemma StillWaits(q: Queue, op: Op, w: Build)
    requires Inv(q) && Waits(q, w) && w in Apply(q, op).pending
    ensures Waits(Apply(q, op), w)
  {
    hide Inv, Apply, Precedes, Waits;
    WaitIsFull(q, w);
    ApplyInv(q, op);
    TurnIff(q, w);
    TurnIff(Apply(q, op), w);
    ApplyShrinks(q, op, w);
  }

  lemma EffectOn(q: Queue, op: Op, w: Build, r: Queue)
    requires Effect(q, op, w, r)
    ensures w in r.pending ==>
      Ahead(r, w) <= Ahead(q, w) - (if Completes(q, op) then 1 else 0) + (if HandsPast(q, op, w) then 1 else 0)
    ensures w !in r.pending ==> w in r.started
  {}

  /* ---- builds whose key is wanted by others ---- */

  /** Build `b` goes before `w` because of their key: it holds the key, or was enqueued earlier. */
  ghost predicate Precedes(q: Queue, b: Build, w: Build) {
    && w.key != "" && b.key == w.key
    && ((b in q.pending && b.ticket < w.ticket) || (b.id in q.keys && b.id in q.active && q.active[b.id] == b))
  }

  /** A waiting build waits for a slot only exactly when nobody goes before it. */
  lemma TurnIff(q: Queue, w: Build)
    requires Inv(q) && w in q.pending
    ensures Waits(q, w) <==> forall b :: !Precedes(q, b, w)
  {
    hide DistinctPending, Bounded, Conserved, Ordered, Saturated;
    if !KeyFree(q, w.key) {
      var id :| id in q.keys && q.keys[id] == w.key;
      assert Precedes(q, q.active[id], w);
    } else {
      forall b: Build | b.id in q.keys && b.id in q.active && q.active[b.id] == b && w.key != ""
        ensures b.key != w.key
      {
        assert q.keys[b.id] in q.keys.Values;
      }
      forall j | 0 <= j < |q.pending| && Precedes(q, q.pending[j], w)
        ensures !Waits(q, w)
      {}
      if j :| 0 <= j < |q.pending| && q.pending[j].ticket < w.ticket && q.pending[j].key == w.key && w.key != "" {
        assert Precedes(q, q.pending[j], w);
      }
    }
  }

  /** Nobody new goes before `w`. */
  ghost predicate Shrinks(q: Queue, r: Queue, w: Build) {
    forall b :: Precedes(r, b, w) ==> Precedes(q, b, w)
  }

  ghost predicate TicketOrder(q: Queue) {
    forall i, j :: 0 <= i < j < |q.pending| ==> q.pending[i].ticket < q.pending[j].ticket
  }

  lemma TakeShrinks(q: Queue, i: nat, p: nat)
    requires TicketOrder(q) && i < |q.pending| && p < |q.pending|
    requires q.pending[i].key == q.pending[p].key ==> i <= p
    ensures TicketOrder(Take(q, i))
    ensures q.pending[p] in Take(q, i).pending ==> Shrinks(q, Take(q, i), q.pending[p])
    ensures q.pending[p] in Take(q, i).pending || q.pending[p] in Take(q, i).started
  {
    WithoutAt(q.pending, i);
    var w, r := q.pending[p], Take(q, i);
    if i == p {
      assert r.started[|q.started|] == w;
      assert forall j :: 0 <= j < |r.pending| ==> r.pending[j].ticket != w.ticket;
    } else {
      assert r.pending[if p < i then p else p - 1] == w;
    }
    forall b | Precedes(r, b, w) && w in r.pending
      ensures Precedes(q, b, w)
    {
      if b in r.pending && b.ticket < w.ticket {
        assert b in q.pending;
      } else if b.id == q.pending[i].id {
        assert b == q.pending[i] && i < p;
      }
    }
  }

  /** The fill loop: the build starts, or goes on waiting behind no more than before. */
  lemma {:induction false} FillShrinks(q: Queue, w: Build)
    requires TicketOrder(q) && w in q.pending
    ensures w in StartPending(q).started || (w in StartPending(q).pending && Shrinks(q, StartPending(q), w))
    decreases |q.pending|
  {
    var i := FirstFree(q, 0);
    if |q.active| < q.limit && i < |q.pending| {
      var p :| 0 <= p < |q.pending| && q.pending[p] == w;
      TakeShrinks(q, i, p);
      hide Take, TicketOrder, Precedes;
      if w in Take(q, i).pending {
        FillShrinks(Take(q, i), w);
      } else {
        StartPendingHistory(Take(q, i));
      }
    }
  }

  lemma ReleaseShrinks(q: Queue, id: string, w: Build)
    requires TicketOrder(q) && w in q.pending
    ensures w in Release(q, id).started || (w in Release(q, id).pending && Shrinks(q, Release(q, id), w))
  {
    var h := HandOver(q, id);
    assert TicketOrder(h) && (w in h.started || (w in h.pending && Shrinks(q, h, w))) by {
      if id in q.keys {
        var l, i := LetGo(q, id), FindKey(q.pending, q.keys[id]);
        assert Shrinks(q, l, w);
        if i < |q.pending| {
          var p :| 0 <= p < |q.pending| && q.pending[p] == w;
          TakeShrinks(l, i, p);
        }
      }
    }
    hide HandOver, TicketOrder, Precedes;
    if w in h.pending {
      FillShrinks(h, w);
    } else {
      StartPendingHistory(h);
    }
    if w in h.started {
      StartPendingHistory(h);
    }
  }

  lemma CompletionShrinks(q: Queue, id: string, w: Build)
    requires TicketOrder(q) && w in q.pending
    ensures w in Complete(q, id).started || (w in Complete(q, id).pending && Shrinks(q, Complete(q, id), w))
  {
    var d := Drop(q, id);
    assert Shrinks(q, d, w);
    hide Precedes;
    FillShrinks(d, w);
  }

  lemma CancelShrinks(q: Queue, id: string, w: Build)
    requires w in q.pending
    ensures Shrinks(q, Cancel(q, id), w)
    ensures id != w.id ==> w in Cancel(q, id).pending
  {
    var i := Find(q.pending, id);
    if !(id in q.active || i == |q.pending|) {
      WithoutAt(q.pending, i);
      var p :| 0 <= p < |q.pending| && q.pending[p] == w;
      if id != w.id {
        assert Cancel(q, id).pending[if p < i then p else p - 1] == w;
      }
    }
  }

  lemma EnqueueShrinks(q: Queue, id: string, key: string, w: Build)
    requires Inv(q) && w in q.pending
    ensures w in Enqueue(q, id, key).pending && Shrinks(q, Enqueue(q, id, key), w)
  {
    hide Exclusive, Bounded, Conserved;
    var r := Enqueue(q, id, key);
    forall b | Precedes(r, b, w)
      ensures Precedes(q, b, w)
    {
    }
  }

  lemma NotBoth(q: Queue, w: Build)
    requires Inv(q) && w in q.started
    ensures w !in q.pending
  {
    hide Exclusive, DistinctPending, Bounded, Conserved, Saturated;
  }

  /** An operation other than its own cancellation starts a waiting build, or leaves it behind no
      more than before. */
  lemma ApplyShrinks(q: Queue, op: Op, w: Build)
    requires Inv(q) && w in q.pending
    ensures w in Apply(q, op).pending ==> Shrinks(q, Apply(q, op), w)
    ensures op != CancelOp(w.id) ==> w in Apply(q, op).started || w in Apply(q, op).pending
  {
    hide Inv, Precedes, Enqueue, Complete, Release, Cancel;
    InQueueOrder(q);
    ApplyInv(q, op);
    if w in Apply(q, op).started {
      NotBoth(Apply(q, op), w);
    }
    match op
    case EnqueueOp(id, key) => EnqueueShrinks(q, id, key, w);
    case CompleteOp(id) => CompletionShrinks(q, id, w);
    case ReleaseOp(id) => ReleaseShrinks(q, id, w);
    case CancelOp(id) => CancelShrinks(q, id, w);
  }

  /** Over every run: a waiting build that is not cancelled starts, or waits behind some of those it
      waited behind at first and nobody else. */
  lemma {:induction false} PredecessorsShrink(q: Queue, ops: seq<Op>, w: Build)
    requires Inv(q) && w in q.pending && CancelOp(w.id) !in ops
    ensures w in Run(q, ops).started || (w in Run(q, ops).pending && Shrinks(q, Run(q, ops), w))
    decreases |ops|
  {
    hide Inv, Apply, Precedes;
    if ops != [] {
      var r := Apply(q, ops[0]);
      ApplyInv(q, ops[0]);
      ApplyShrinks(q, ops[0], w);
      if w in r.pending {
        PredecessorsShrink(r, ops[1..], w);
      } else {
        RunHistoryGrows(r, ops[1..]);
      }
    }
  }

  /** When the only build before `w` lets its key go, `w` starts at once; when that build completes
      with its key, `w` starts or waits for a slot only. */
  lemma HolderLeaves(q: Queue, holder: string, w: Build)
    requires Inv(q) && w in q.pending && holder in q.keys && q.keys[holder] == w.key
    requires forall b :: Precedes(q, b, w) ==> b.id == holder
    ensures w in Release(q, holder).started
    ensures w in Complete(q, holder).started || Waits(Complete(q, holder), w)
  {
    ReleaseStarts(q, holder, w);
    CompletionLeaves(q, holder, w);
  }

  lemma ReleaseStarts(q: Queue, holder: string, w: Build)
    requires Inv(q) && w in q.pending && holder in q.keys && q.keys[holder] == w.key
    requires forall b :: Precedes(q, b, w) ==> b.id == holder
    ensures w in Release(q, holder).started
  {
    hide Inv, StartPending;
    InQueueOrder(q);
    KeyHeld(q, holder);
    HolderNotPending(q, holder);
    var p :| 0 <= p < |q.pending| && q.pending[p] == w;
    forall j | 0 <= j < p
      ensures q.pending[j].key != w.key
    {
      var b := q.pending[j];
      assert b.key != w.key || Precedes(q, b, w);
    }
    var h := HandOver(q, holder);
    assert h.started[|q.started|] == w;
    StartPendingHistory(h);
  }

  lemma HolderNotPending(q: Queue, holder: string)
    requires Inv(q) && holder in q.keys
    ensures holder in q.active && forall j :: 0 <= j < |q.pending| ==> q.pending[j].id != holder
  {
    hide Bounded, Conserved, Ordered, Saturated;
  }

  lemma CompletionLeaves(q: Queue, holder: string, w: Build)
    requires Inv(q) && w in q.pending && holder in q.keys && q.keys[holder] == w.key
    requires forall b :: Precedes(q, b, w) ==> b.id == holder
    ensures w in Complete(q, holder).started || Waits(Complete(q, holder), w)
  {
    hide Inv, StartPending;
    InQueueOrder(q);
    HolderNotPending(q, holder);
    CompleteInv(q, holder);
    var d := Drop(q, holder);
    assert forall b :: !Precedes(d, b, w);
    FillShrinks(d, w);
    hide Precedes;
    if w !in Complete(q, holder).started {
      TurnIff(Complete(q, holder), w);
    }
  }

  /** Bounded wait of any build: once a run has brought it to where nobody goes before it, it starts with
      the next completions but for the builds ahead of it and the keys handed past it. */
  lemma EveryBuildStarts(q: Queue, before: seq<Op>, after: seq<Op>, w: Build)
    requires Inv(q) && w in q.pending && CancelOp(w.id) !in before + after
    requires forall b :: !Precedes(Run(q, before), b, w)
    requires w in Run(q, before).pending ==>
      Completions(Run(q, before), after) > Ahead(Run(q, before), w) + HandOvers(Run(q, before), after, w)
    ensures w in Run(q, before + after).started
  {
    hide Inv, Precedes, Waits, Ahead;
    var m := Run(q, before);
    PredecessorsShrink(q, before, w);
    RunInv(q, before);
    RunConcat(q, before, after);
    if w in m.started {
      RunHistoryGrows(m, after);
    } else {
      TurnIff(m, w);
      BoundedWait(m, after, w);
    }
  }

  /* ---- what the scheduler does not promise ---- */

  /** A keyless build waits while one keyed build runs at a limit of one. */
  ghost predicate Overtaken(q: Queue, holder: string, waiting: Build) {
    && q.limit == 1 && waiting.key == "" && waiting.id != holder && waiting.ticket < q.next
    && q.active.Keys == {holder} && q.keys == map[holder := "k"] && q.pending == [waiting]
  }

  function Round(holder: string, next: string): seq<Op> {
    [EnqueueOp(next, "k"), ReleaseOp(holder), CompleteOp(holder)]
  }

  /** A keyed successor arrives, takes over the key past the keyless build, and its predecessor
      completes: the keyless build still waits. */
  lemma OvertakenAgain(q: Queue, holder: string, next: string, waiting: Build)
    requires Overtaken(q, holder, waiting) && next != holder && next != waiting.id
    ensures Overtaken(Run(q, Round(holder, next)), next, waiting)
    ensures Completions(q, Round(holder, next)) == 1 && HandOvers(q, Round(holder, next), waiting) == 1
  {
    var b := Build(next, "k", q.next);
    assert q.keys[holder] in q.keys.Values;
    var q1 := Enqueue(q, next, "k");
    assert q1.pending == [waiting, b];
    assert FindKey(q1.pending[1..], "k") == 0 && FindKey(q1.pending, "k") == 1;
    var q2 := HandOver(q1, holder);
    assert Without(q1.pending, 1) == [waiting];
    assert q2.active.Keys == {holder, next} && q2.keys == map[next := "k"];
    assert |q2.active| == |{holder, next}| == 2;
    var q3 := Drop(q2, holder);
    assert q3.active.Keys == {next} && |q3.active| == |{next}| && q3.keys == map[next := "k"];
    assert Apply(q1, ReleaseOp(holder)) == q2 && Apply(q2, CompleteOp(holder)) == q3;
    RoundOf(q, q1, q2, q3, holder, next, waiting);
  }

  lemma RoundOf(q: Queue, q1: Queue, q2: Queue, q3: Queue, holder: string, next: string, w: Build)
    requires q1 == Apply(q, EnqueueOp(next, "k")) && q2 == Apply(q1, ReleaseOp(holder))
    requires q3 == Apply(q2, CompleteOp(holder))
    ensures Run(q, Round(holder, next)) == q3
    ensures Completions(q, Round(holder, next)) == if holder in q2.active then 1 else 0
    ensures HandOvers(q, Round(holder, next), w) == if HandsPast(q1, ReleaseOp(holder), w) then 1 else 0
  {
    hide Apply;
    var ops := Round(holder, next);
    assert ops[1..] == [ReleaseOp(holder), CompleteOp(holder)] && ops[1..][1..] == [CompleteOp(holder)];
    assert ops[1..][1..][1..] == [];
    assert Run(q, ops) == Run(q1, ops[1..]) == Run(q2, ops[1..][1..]) == Run(q3, []);
    assert Completions(q, ops) == Completions(q1, ops[1..]) == Completions(q2, ops[1..][1..]);
    assert Completions(q2, ops[1..][1..]) == (if holder in q2.active then 1 else 0) + Completions(q3, []);
    assert HandOvers(q, ops, w) == HandOvers(q1, ops[1..], w);
    assert HandOvers(q2, ops[1..][1..], w) == 0;
  }

  lemma {:induction false} CountsConcat(q: Queue, a: seq<Op>, b: seq<Op>, w: Build)
    ensures Completions(q, a + b) == Completions(q, a) + Completions(Run(q, a), b)
    ensures HandOvers(q, a + b, w) == HandOvers(q, a, w) + HandOvers(Run(q, a), b, w)
    decreases |a|
  {
    hide Apply, Completes, HandsPast;
    if a == [] {
      assert a + b == b;
    } else {
      assert (a + b)[1..] == a[1..] + b;
      CountsConcat(Apply(q, a[0]), a[1..], b, w);
    }
  }

  /** For every number of rounds there is a run with that many completions, and as many keys handed
      past it, that keeps the keyless build waiting: starvation freedom does not hold. */
  lemma {:induction false} StarvationRun(q: Queue, holder: string, other: string, waiting: Build, rounds: nat)
    returns (ops: seq<Op>, last: string)
    requires Overtaken(q, holder, waiting) && other != holder && other != waiting.id
    ensures |ops| == 3 * rounds && Overtaken(Run(q, ops), last, waiting)
    ensures Completions(q, ops) == rounds && HandOvers(q, ops, waiting) == rounds
    decreases rounds
  {
    hide Overtaken, Round;
    ops, last := [], holder;
    if rounds > 0 {
      var round := Round(holder, other);
      RoundLength(holder, other);
      NotSelf(q, holder, waiting);
      OvertakenAgain(q, holder, other, waiting);
      var rest;
      rest, last := StarvationRun(Run(q, round), other, holder, waiting, rounds - 1);
      RunConcat(q, round, rest);
      CountsConcat(q, round, rest, waiting);
      ops := round + rest;
    }
  }

  lemma RoundLength(holder: string, next: string)
    ensures |Round(holder, next)| == 3
  {}

  lemma NotSelf(q: Queue, holder: string, waiting: Build)
    requires Overtaken(q, holder, waiting)
    ensures holder != waiting.id
  {}

  /** There is no bound on the wait: from an empty queue, for every number of rounds there is a run
      with that many completions after which the second build enqueued still waits. In it as many
      keys are handed past the build, so the bound of `BoundedWait` is tight. */
  lemma StarvationIsReachable(rounds: nat) returns (ops: seq<Op>)
    ensures Run(New(1), ops).pending == [Build("b", "", 1)]
    ensures Completions(New(1), ops) == rounds && HandOvers(New(1), ops, Build("b", "", 1)) == rounds
    ensures |ops| == 2 + 3 * rounds
  {
    var w, first := Build("b", "", 1), [EnqueueOp("a", "k"), EnqueueOp("b", "")];
    var q1 := Enqueue(New(1), "a", "k");
    assert q1.active.Keys == {"a"} && |q1.active| == |{"a"}|;
    var q2 := Enqueue(q1, "b", "");
    assert q2.pending == [w];
    assert first[1..] == [EnqueueOp("b", "")] && first[1..][1..] == [];
    assert Run(New(1), first) == Run(q1, first[1..]) == Run(q2, []);
    assert Completions(New(1), first) == Completions(q1, first[1..]) == Completions(q2, []);
    assert HandOvers(New(1), first, w) == HandOvers(q1, first[1..], w) == HandOvers(q2, [], w);
    assert Overtaken(q2, "a", w);
    var rest, last := StarvationRun(q2, "a", "c", w, rounds);
    RunConcat(New(1), first, rest);
    CountsConcat(New(1), first, rest, w);
    ops := first + rest;
  }
}
