/** The mutable build queue: the methods of lib/builds/queue.go over their own fields,
    proved against the value-level queue. */
module BuildScheduler {
  import opened BuildQueue

  datatype Option<+T> = None | Some(value: T)

  datatype QueuedBuild = QueuedBuild(id: string, key: string)

  class Scheduler {
    const maxConcurrent: nat
    var active: set<string>
    var activeSerialKeys: map<string, string>
    var pending: seq<QueuedBuild>
    ghost var model: Queue

    /** The fields are the model without its history. */
    ghost predicate Mirrors()
      reads this
    {
      && maxConcurrent == model.limit
      && active == model.active.Keys
      && activeSerialKeys == model.keys
      && |pending| == |model.pending|
      && forall i :: 0 <= i < |pending| ==> pending[i] == QueuedBuild(model.pending[i].id, model.pending[i].key)
    }

    ghost predicate Valid()
      reads this
    {
      Mirrors() && Inv(model)
    }

    constructor (limit: int)
      ensures Valid() && model == New(limit)
    {
      maxConcurrent := if limit < 1 then 1 else limit;
      active, activeSerialKeys, pending := {}, map[], [];
      model := New(limit);
      new;
      NewInv(limit);
    }

    predicate SerialKeyFree(key: string)
      reads this
    {
      key == "" || key !in activeSerialKeys.Values
    }

    method StartAt(i: nat)
      requires Mirrors() && i < |pending|
      modifies this
      ensures Mirrors() && model == Take(old(model), i)
    {
      var build := pending[i];
      pending := pending[..i] + pending[i + 1..];
      active := active + {build.id};
      if build.key != "" {
        activeSerialKeys := activeSerialKeys[build.id := build.key];
      }
      WithoutAt(model.pending, i);
      model := Take(model, i);
    }

    /** startPendingLocked. */
    method StartPendingLocked()
      requires Mirrors() && Base(model)
      modifies this
      ensures Mirrors() && model == StartPending(old(model))
    {
      while |active| < maxConcurrent
        invariant Mirrors() && Base(model)
        invariant StartPending(model) == StartPending(old(model))
        decreases |pending|
      {
        var idx := FirstStartable();
        if idx == |pending| {
          return;
        }
        TakeFirstFree(model);
        StartAt(idx);
      }
    }

    method FirstStartable() returns (idx: nat)
      requires Mirrors()
      ensures idx == FirstFree(model, 0)
    {
      idx := 0;
      while idx < |pending| && !SerialKeyFree(pending[idx].key)
        invariant 0 <= idx <= |pending|
        invariant FirstFree(model, idx) == FirstFree(model, 0)
      {
        idx := idx + 1;
      }
    }

    method PositionOf(id: string) returns (i: nat)
      requires Mirrors()
      ensures i == Find(model.pending, id)
    {
      i := 0;
      while i < |pending| && pending[i].id != id
        invariant 0 <= i <= |pending|
        invariant forall j :: 0 <= j < i ==> pending[j].id != id
      {
        i := i + 1;
      }
      assert Find(model.pending, id) == i;
    }

    /** Returns zero for a running build and its one-based place for a waiting one. */
    method EnqueueSerial(id: string, key: string) returns (position: nat)
      requires Valid()
      modifies this
      ensures Valid() && model == Enqueue(old(model), id, key)
      ensures position == 0 <==> id in model.active
      ensures position > 0 ==> position <= |model.pending| && model.pending[position - 1].id == id
    {
      hide Base, Saturated;
      EnqueueInv(model, id, key);
      if id in active {
        return 0;
      }
      var i := PositionOf(id);
      if i < |pending| {
        assert model.pending[i].id !in model.active by { PendingNotActive(model, i); }
        return i + 1;
      }
      ghost var before := model;
      if |active| < maxConcurrent && SerialKeyFree(key) {
        active := active + {id};
        if key != "" {
          activeSerialKeys := activeSerialKeys[id := key];
        }
        position := 0;
      } else {
        pending := pending + [QueuedBuild(id, key)];
        position := |pending|;
      }
      model := Enqueue(before, id, key);
    }

    method MarkComplete(id: string)
      requires Valid()
      modifies this
      ensures Valid() && model == Complete(old(model), id)
    {
      hide Base, Saturated;
      CompleteInv(model, id);
      DropBase(model, id);
      active := active - {id};
      activeSerialKeys := activeSerialKeys - {id};
      model := Drop(model, id);
      StartPendingLocked();
    }

    method ReleaseSerialKey(id: string)
      requires Valid()
      modifies this
      ensures Valid() && model == Release(old(model), id)
    {
      hide Base, Saturated;
      ReleaseInv(model, id);
      HandOverBase(model, id);
      ghost var before := model;
      if id in activeSerialKeys {
        var key := activeSerialKeys[id];
        activeSerialKeys := activeSerialKeys - {id};
        model := LetGo(model, id);
        var i := 0;
        while i < |pending| && pending[i].key != key
          invariant 0 <= i <= |pending|
          invariant forall j :: 0 <= j < i ==> pending[j].key != key
        {
          i := i + 1;
        }
        assert i == FindKey(model.pending, key);
        if i < |pending| {
          StartAt(i);
        }
      }
      assert model == HandOver(before, id);
      StartPendingLocked();
    }

    method CancelBuild(id: string) returns (cancelled: bool)
      requires Valid()
      modifies this
      ensures Valid() && model == Cancel(old(model), id)
      ensures cancelled <==> exists i :: 0 <= i < |old(model).pending| && old(model).pending[i].id == id
    {
      hide Base, Saturated;
      CancelInv(model, id);
      if id in active {
        forall i | 0 <= i < |model.pending| ensures model.pending[i].id != id {
          PendingNotActive(model, i);
        }
        return false;
      }
      var i := PositionOf(id);
      cancelled := i < |pending|;
      if cancelled {
        WithoutAt(model.pending, i);
        pending := pending[..i] + pending[i + 1..];
        model := Withdraw(model, i);
      }
    }

    /** Whether an active or a pending build uses the key. */
    method HasSerialKey(key: string) returns (found: bool)
      requires Mirrors()
      ensures found <==>
        key != "" &&
        (key in model.keys.Values || exists i :: 0 <= i < |model.pending| && model.pending[i].key == key)
    {
      if key == "" {
        return false;
      }
      if key in activeSerialKeys.Values {
        return true;
      }
      for i := 0 to |pending|
        invariant forall j :: 0 <= j < i ==> model.pending[j].key != key
      {
        if pending[i].key == key {
          return true;
        }
      }
      found := false;
    }
  }
}
