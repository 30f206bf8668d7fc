/** Runs of the auto-standby controller to what it should not do. Two StandbyInstance calls overlap
    on one state: the instance is deleted and made again while its first standby is in the call, and
    that first worker, on its way out, unmarks the new state under its second worker. And a standby
    starts before the idle timeout in force has passed. */
module StandbyOverlap {
  import opened ConnectionClassifier
  import opened StandbyState
  import opened StandbyWorld
  import opened StandbyFlight

  ghost predicate Leads(s: World, es: seq<Step>, r: World)
    decreases |es|
  {
    if es == [] then s == r
    else exists m :: Next(s, es[0], m) && Leads(m, es[1..], r)
  }

  lemma {:induction false} LeadsOn(s: World, es: seq<Step>, m: World, fs: seq<Step>, r: World)
    requires Leads(s, es, m) && Leads(m, fs, r)
    ensures Leads(s, es + fs, r)
    decreases |es|
  {
    hide Next;
    if es == [] {
      assert es + fs == fs;
    } else {
      var n :| Next(s, es[0], n) && Leads(n, es[1..], m);
      LeadsOn(n, es[1..], m, fs, r);
      assert (es + fs)[1..] == es[1..] + fs;
    }
  }

  lemma LeadsOne(s: World, e: Step, r: World)
    requires Next(s, e, r)
    ensures Leads(s, [e], r)
  {
    hide Next;
    assert Leads(r, [], r);
    assert [e][1..] == [];
  }

  lemma LeadsStep(s: World, es: seq<Step>, m: World, e: Step, r: World)
    requires Leads(s, es, m) && Next(m, e, r)
    ensures Leads(s, es + [e], r)
  {
    hide Next;
    LeadsOne(m, e, r);
    LeadsOn(s, es, m, [e], r);
  }

  const A: Id := "a"

  ghost predicate Only(s: World, st: State) { s.states == map[A := st] }

  /** With one instance, a step is what it does to that instance. */
  lemma OnlyNext(s: World, e: Step, st: State)
    requires Only(s, st) && Named(e) <= {A} && Local(s, e, A).Some?
    ensures NextStates(s, e) == map[A := Local(s, e, A).value]
  {
    hide Local;
    StatesAre(s, e, A);
    forall id | id in NextStates(s, e)
      ensures id == A
    {}
  }

  /** A due timer runs its course: confirmed by an empty snapshot, requested, claimed. */
  lemma TimerRuns(s: World, st: State) returns (es: seq<Step>, m: World)
    requires Only(s, st) && LoopFree(s) && !s.cancelled
    requires MayRequest(st) && Elapsed(st, s.clock) && st.ip.Parsed?
    ensures Leads(s, es, m) && Starts(m, Take(|s.workers|), A)
    ensures m == World(s.clock, map[A := Request(st)], s.born, Waiting,
                       s.workers + [Worker(A, 0, Ready)], false, false)
  {
    hide Leads;
    var none: Option<seq<Connection>> := Some([]);
    var s1 := s.(loop := Passed(A));
    OnlyNext(s, Fire(A), st);
    assert Next(s, Fire(A), s1);
    LeadsOne(s, Fire(A), s1);
    var s2 := s.(loop := Listed(A, none));
    OnlyNext(s1, List(none), st);
    assert Next(s1, List(none), s2);
    LeadsStep(s, [Fire(A)], s1, List(none), s2);
    var s3 := s.(loop := Cleared(A));
    OnlyNext(s2, Check, st);
    assert Confirm(st, none) == Quiet;
    assert Next(s2, Check, s3);
    LeadsStep(s, [Fire(A)] + [List(none)], s2, Check, s3);
    es, m := TimerAsks(s, s3, st, [Fire(A)] + [List(none)] + [Check]);
  }

  lemma TimerAsks(s: World, s3: World, st: State, es: seq<Step>) returns (fs: seq<Step>, m: World)
    requires Only(s, st) && LoopFree(s) && !s.cancelled && s3 == s.(loop := Cleared(A)) && Leads(s, es, s3)
    requires MayRequest(st) && Elapsed(st, s.clock)
    ensures Leads(s, fs, m) && Starts(m, Take(|s.workers|), A)
    ensures m == World(s.clock, map[A := Request(st)], s.born, Waiting,
                       s.workers + [Worker(A, 0, Ready)], false, false)
  {
    hide Leads;
    var w := |s.workers|;
    var s4 := s.(states := map[A := Request(st)], workers := s.workers + [Worker(A, 0, Queued)]);
    OnlyNext(s3, Ask, st);
    assert Next(s3, Ask, s4);
    LeadsStep(s, es, s3, Ask, s4);
    m := BeginRuns(s4, Request(st), s.workers);
    LeadsStep(s, es + [Ask], s4, Begin(w), m);
    fs := es + [Ask] + [Begin(w)];
  }

  lemma BeginRuns(s: World, st: State, ws: seq<Worker>) returns (m: World)
    requires Only(s, st) && !s.cancelled && s.workers == ws + [Worker(A, 0, Queued)]
    ensures m == s.(workers := ws + [Worker(A, 0, Ready)]) && Next(s, Begin(|ws|), m)
  {
    m := s.(workers := ws + [Worker(A, 0, Ready)]);
    OnlyNext(s, Begin(|ws|), st);
    assert s.workers[|ws| := s.workers[|ws|].(phase := Ready)] == m.workers;
  }

  const POLICY := Policy(1, {}, [])
  const INST := Instance(A, true, true, Parsed(7), false, Compiled(POLICY), None)

  /** The state of an instance seeded idle at `at`. */
  function Seeded(inc: nat, at: int): State {
    State(Parsed(7), Some(POLICY), {}, 1, Some(at), None, Some(at + 1), None, false, false, false, 1, inc)
  }

  lemma SeedRuns(s: World) returns (es: seq<Step>, m: World)
    requires s.states == map[] && LoopFree(s)
    ensures Leads(s, es, m)
    ensures m == s.(states := map[A := Seeded(s.born, s.clock)], born := s.born + 1, clock := s.clock + 1)
  {
    var e := RefreshInstance(INST, [], s.clock);
    var m1 := s.(states := map[A := Seeded(s.born, s.clock)], born := s.born + 1);
    assert Refresh(Fresh(s.born), INST, [], s.clock) == Seeded(s.born, s.clock);
    assert NextStates(s, e) == m1.states;
    assert Next(s, e, m1);
    LeadsOne(s, e, m1);
    m := m1.(clock := s.clock + 1);
    OnlyNext(m1, Tick(s.clock + 1), Seeded(s.born, s.clock));
    assert Next(m1, Tick(s.clock + 1), m);
    LeadsStep(s, [e], m1, Tick(s.clock + 1), m);
    es := [e] + [Tick(s.clock + 1)];
  }

  /** The claim that `TimerRuns` leads up to. */
  lemma TakeRuns(s: World, st: State, ws: seq<Worker>) returns (m: World)
    requires Only(s, st) && MayClaim(st) && s.workers == ws + [Worker(A, 0, Ready)]
    ensures Next(s, Take(|ws|), m)
    ensures m == s.(states := map[A := st.(executing := true)], workers := ws + [Worker(A, st.incarnation, Calling)])
  {
    m := s.(states := map[A := st.(executing := true)], workers := ws + [Worker(A, st.incarnation, Calling)]);
    OnlyNext(s, Take(|ws|), st);
    assert s.workers[|ws| := Worker(A, st.incarnation, Calling)] == m.workers;
  }

  /** Seed, wait, request, claim: the instance's next worker is in its call. */
  lemma RoundRuns(s: World) returns (es: seq<Step>, m: World)
    requires s.states == map[] && LoopFree(s) && !s.cancelled
    ensures Leads(s, es, m)
    ensures m == World(s.clock + 1, map[A := Seeded(s.born, s.clock).(next := None, requested := true, executing := true)],
                       s.born + 1, Waiting, s.workers + [Worker(A, s.born, Calling)], false, false)
  {
    hide Next, Leads;
    var es1, m1 := SeedRuns(s);
    var st := Seeded(s.born, s.clock);
    var es2, m2 := TimerRuns(m1, st);
    LeadsOn(s, es1, m1, es2, m2);
    m := TakeRuns(m2, Request(st), s.workers);
    LeadsStep(s, es1 + es2, m2, Take(|s.workers|), m);
    es := es1 + es2 + [Take(|s.workers|)];
  }

  /** From a fresh controller the overlap is reached: worker 2 starts a call on the state
      on which worker 1 is still in its own. */
  lemma OverlapIsReachable() returns (es: seq<Step>, s: World, r: World)
    ensures Initial(s) && Leads(s, es, r)
    ensures Starts(r, Take(2), A) && Busy(r.workers, 1, A, r.states[A].incarnation)
  {
    hide Leads;
    s := World(0, map[], 0, Waiting, [], false, false);
    var es1, m1 := RoundRuns(s);
    var m2 := m1.(states := map[]);
    assert Next(m1, Delete(A), m2);
    LeadsStep(s, es1, m1, Delete(A), m2);
    var es3, m3 := RoundRuns(m2);
    LeadsOn(s, es1 + [Delete(A)], m2, es3, m3);
    var st := Seeded(1, 1).(next := None, requested := true, executing := true);
    assert m3.workers == [Worker(A, 0, Calling), Worker(A, 1, Calling)];
    es, r := Usurped(s, es1 + [Delete(A)] + es3, m3, st);
  }

  lemma Usurped(s: World, es: seq<Step>, m3: World, st: State) returns (fs: seq<Step>, r: World)
    requires Leads(s, es, m3) && st == Seeded(1, 1).(next := None, requested := true, executing := true)
    requires m3 == World(2, map[A := st], 2, Waiting, [Worker(A, 0, Calling), Worker(A, 1, Calling)], false, false)
    ensures Leads(s, fs, r) && Starts(r, Take(2), A) && Busy(r.workers, 1, A, r.states[A].incarnation)
  {
    hide Leads, Next;
    var st4 := Failed(st, 2);
    var m4 := m3.(states := map[A := st4], workers := [Worker(A, 0, Finishing), Worker(A, 1, Calling)]);
    ReturnRuns(m3, st, m4);
    LeadsStep(s, es, m3, Return(0, Failure), m4);
    var st5 := st4.(executing := false);
    var m5 := m4.(states := map[A := st5], workers := [Worker(A, 0, Exited), Worker(A, 1, Calling)]);
    DoneRuns(m4, st4, m5);
    LeadsStep(s, es + [Return(0, Failure)], m4, Done(0), m5);
    var m6 := m5.(clock := 3);
    TickRuns(m5, st5, 3);
    LeadsStep(s, es + [Return(0, Failure)] + [Done(0)], m5, Tick(3), m6);
    var gs, m7 := TimerRuns(m6, st5);
    LeadsOn(s, es + [Return(0, Failure)] + [Done(0)] + [Tick(3)], m6, gs, m7);
    fs, r := es + [Return(0, Failure)] + [Done(0)] + [Tick(3)] + gs, m7;
  }

  lemma ReturnRuns(s: World, st: State, m: World)
    requires Only(s, st) && s.workers == [Worker(A, 0, Calling), Worker(A, 1, Calling)]
    requires m == s.(states := map[A := Failed(st, s.clock)], workers := [Worker(A, 0, Finishing), Worker(A, 1, Calling)])
    ensures Next(s, Return(0, Failure), m)
  {
    OnlyNext(s, Return(0, Failure), st);
    assert s.workers[0 := Worker(A, 0, Finishing)] == m.workers;
  }

  lemma DoneRuns(s: World, st: State, m: World)
    requires Only(s, st) && s.workers == [Worker(A, 0, Finishing), Worker(A, 1, Calling)]
    requires m == s.(states := map[A := st.(executing := false)], workers := [Worker(A, 0, Exited), Worker(A, 1, Calling)])
    ensures Next(s, Done(0), m)
  {
    OnlyNext(s, Done(0), st);
    assert s.workers[0 := Worker(A, 0, Exited)] == m.workers;
  }

  lemma TickRuns(s: World, st: State, to: int)
    requires Only(s, st) && to >= s.clock
    ensures Next(s, Tick(to), s.(clock := to))
  {
    OnlyNext(s, Tick(to), st);
  }

  /* ---- a start before the full timeout ---- */

  /** The same instance under a longer timeout, at an address that does not parse. */
  const LONGER := INST.(ip := Malformed, autoStandby := Compiled(Policy(10, {}, [])))

  /** A refresh that takes over a longer timeout and then stops leaves the standing request alone. */
  lemma LongerRuns(s: World, st: State) returns (m: World)
    requires Only(s, st) && LoopFree(s) && !st.executing
    ensures m == s.(states := map[A := st.(ip := Malformed, policy := Some(Policy(10, {}, [])), timeout := 10)])
    ensures Next(s, RefreshInstance(LONGER, [], s.clock), m)
  {
    var e := RefreshInstance(LONGER, [], s.clock);
    m := s.(states := map[A := st.(ip := Malformed, policy := Some(Policy(10, {}, [])), timeout := 10)]);
    OnlyNext(s, e, st);
  }

  /** From a fresh controller: a worker starts a standby one time unit after the instance fell idle,
      although the timeout in force is ten. */
  lemma EarlyStartIsReachable() returns (es: seq<Step>, s: World, r: World)
    ensures Initial(s) && Leads(s, es, r) && Starts(r, Take(0), A)
    ensures r.states[A].idleSince == Some(0) && r.states[A].timeout == 10 && r.clock == 1
  {
    hide Leads, Next;
    s := World(0, map[], 0, Waiting, [], false, false);
    var es1, m1 := SeedRuns(s);
    var st := Seeded(0, 0);
    var es2, m2 := TimerRuns(m1, st);
    LeadsOn(s, es1, m1, es2, m2);
    r := LongerRuns(m2, Request(st));
    LeadsStep(s, es1 + es2, m2, RefreshInstance(LONGER, [], m2.clock), r);
    es := es1 + es2 + [RefreshInstance(LONGER, [], m2.clock)];
  }
}
