/** From which states a running clear can still come to its end. */
module ProtocolProgress {
  import opened Common
  import opened Circular
  import opened Protocol
  import opened ProtocolInvariant
  import opened ProtocolSteps
  import opened ProtocolEffects
  import opened ProtocolRuns
  import opened ProtocolSections

  // Runs as the kernel allows them.

  /** No wait ends with a negative code: wait_event_timeout returns zero or more. */
  predicate Plausible(es: seq<Event>) {
    forall i :: 0 <= i < |es| ==> !es[i].Interrupt?
  }

  ghost predicate Goes(s: State, es: seq<Event>, end: State) {
    Leads(s, es, end) && Plausible(es)
  }

  lemma GoesOne(s: State, e: Event, mid: State, es: seq<Event>, end: State)
    requires Enabled(s, e) && !e.Interrupt? && Apply(s, e) == mid && Goes(mid, es, end)
    ensures Goes(s, [e] + es, end)
  {
    OneStep(s, e, mid, es, end);
  }

  lemma GoesThen(s: State, es: seq<Event>, mid: State, es': seq<Event>, end: State)
    requires Goes(s, es, mid) && Goes(mid, es', end)
    ensures Goes(s, es + es', end)
  {
    Then(s, es, mid, es', end);
  }

  lemma PlausibleRest(es: seq<Event>)
    requires es != [] && Plausible(es)
    ensures !es[0].Interrupt? && Plausible(es[1..])
  {
  }

  lemma {:induction false} SoloPlausible(t: Tid, n: nat)
    ensures Plausible(Solo(t, n))
  {
    if n > 0 {
      SoloPlausible(t, n - 1);
    }
  }

  // What stands in the way.

  /** The owner of the lock will never release it: it left by line 251 or is about to, or followed a null cursor or is about to. */
  ghost predicate Stuck(s: State) {
    s.lock.Some? && s.lock.value in s.pc && StuckAt(s, s.pc[s.lock.value])
  }

  predicate StuckAt(s: State, p: Pc) {
    !Critical(p) || p.GetFault? || (p.GetRecheck? && s.shutdown) || (p.GetCheck? && !s.shutdown && s.list == [])
  }

  /** A waiting get_free that can only go on to take the lock. */
  predicate Committed(s: State, p: Pc) {
    p.GetRelock? || ((p.GetCond? || p.GetAsleep?) && Available(s, p.b))
  }

  /** Thread h holds a buffer and can release it only after leaving by line 251. */
  ghost predicate Doomed(s: State, t: Tid, h: Tid) {
    && t in s.pc && (s.shutdown || s.pc[t].ClearFlag?)
    && h in s.pc && h in s.held && s.held[h] != {} && Committed(s, s.pc[h])
  }

  /** The lock is gone, the clearing thread waits for itself, or it waits for a thread that will take the lock away. */
  ghost predicate Hopeless(s: State, t: Tid) {
    Stuck(s) || HoldsSome(s, t) || exists h :: Doomed(s, t, h)
  }

  /** The thread holds some buffer. */
  ghost predicate HoldsSome(s: State, t: Tid) {
    t in s.held && s.held[t] != {}
  }

  /** Buffers that came too late for clear are nobody's. */
  ghost predicate Spare(s: State) {
    forall b :: b in s.behind ==> Available(s, b)
  }

  // They stay.

  lemma {:induction false} SpareRun(s: State, es: seq<Event>)
    requires Inv(s) && Spare(s) && Valid(s, es)
    ensures Spare(Outcome(s, es))
    decreases |es|
  {
    if es != [] {
      var e, s' := es[0], Apply(s, es[0]);
      EventEffect(s, s', e);
      StepKeeps(s, e);
      SpareStep(s, s', e);
      SpareRun(s', es[1..]);
    }
  }

  lemma SpareStep(s: State, s': State, e: Event)
    requires Inv(s) && Spare(s) && Enabled(s, e) && s' == Apply(s, e) && Effect(s, s', e)
    ensures Spare(s')
  {
    var p := s.pc[e.tid];
    assert LocalOk(s, e.tid, p);
    if e.Run? && p.SetAvail? {
      FreesMore(s, s', e.tid);
    } else if e.Run? && p.AppendLink? {
      LinkedIsFree(s, e.tid);
    }
    StaysSpare(s, s', e);
  }

  lemma StaysSpare(s: State, s': State, e: Event)
    requires Spare(s) && Effect(s, s', e) && LocalOk(s, e.tid, s.pc[e.tid]) && (!s.shutdown ==> s.behind == {})
    requires e.Run? && s.pc[e.tid].SetAvail? ==> forall b :: Available(s, b) ==> Available(s', b)
    requires e.Run? && s.pc[e.tid].AppendLink? ==> Available(s, s.pc[e.tid].b)
    ensures Spare(s')
  {
  }

  lemma FreesMore(s: State, s': State, t: Tid)
    requires Enabled(s, Run(t)) && s.pc[t].SetAvail? && s' == Exec(s, t)
    ensures forall b :: Available(s, b) ==> Available(s', b)
  {
  }

  lemma LinkedIsFree(s: State, t: Tid)
    requires Partition(s) && Holding(s) && t in s.pc && s.pc[t].AppendLink?
    ensures Available(s, s.pc[t].b)
  {
    var b := s.pc[t].b;
    assert Adding(s.pc[t]) == Some(b);
    assert b in s.flags && !s.flags[b].available ==> HasHolder(s, b);
  }

  lemma ReachableSpare(s: State)
    requires Reachable(s)
    ensures Inv(s) && Spare(s)
  {
    var threads, es :| Valid(Init(threads), es) && Outcome(Init(threads), es) == s;
    InitInv(threads);
    RunKeeps(Init(threads), es);
    SpareRun(Init(threads), es);
  }

  lemma OwnerSticks(s: State, s': State, e: Event)
    requires Cursor(s) && Enabled(s, e) && s' == Apply(s, e) && s.lock == Some(e.tid)
    requires (s.pc[e.tid].GetRecheck? && s.shutdown) || (s.pc[e.tid].GetCheck? && !s.shutdown && s.list == [])
    ensures Stuck(s')
  {
  }

  lemma StuckStep(s: State, s': State, e: Event)
    requires Locks(s) && Cursor(s) && Enabled(s, e) && s' == Apply(s, e) && Effect(s, s', e) && Stuck(s)
    ensures Stuck(s')
  {
    var o := s.lock.value;
    WokenStays(s.pc[o]);
    if e.tid == o && Critical(s.pc[o]) {
      OwnerSticks(s, s', e);
    }
  }

  /** clear does not end while a buffer is held. */
  lemma HeldNotOver(s: State, t: Tid, h: Tid)
    requires Clearing(s) && Holding(s) && Spare(s) && t in s.pc && HoldsSome(s, h)
    ensures !s.pc[t].ClearUnlock? && !s.phase.Finished?
  {
    assert SweepOk(s, s.pc[t]);
    var b :| b in s.held[h];
    assert Holds(s, h, b);
  }

  lemma DoomedStep(s: State, s': State, e: Event, t: Tid, h: Tid)
    requires !e.Interrupt? && Locks(s) && Locals(s) && Clearing(s) && Enabled(s, e) && s' == Apply(s, e) && Effect(s, s', e)
    requires s.phase == Called(t) && Doomed(s, t, h) && !s.pc[t].ClearUnlock?
    ensures Stuck(s') || Doomed(s', t, h)
  {
    assert LocalOk(s, e.tid, s.pc[e.tid]) && LocalOk(s, h, s.pc[h]);
    if e.tid == h {
      DoomedMoves(s, s', e, t, h);
    } else {
      if e.Run? && s.pc[e.tid].SetAvail? {
        FreesMore(s, s', e.tid);
      }
      OthersDoomed(s, s', e, t, h);
    }
  }

  lemma DoomedMoves(s: State, s': State, e: Event, t: Tid, h: Tid)
    requires !e.Interrupt? && Locks(s) && Clearing(s) && Enabled(s, e) && s' == Apply(s, e) && e.tid == h
    requires s.phase == Called(t) && Doomed(s, t, h)
    ensures Stuck(s') || Doomed(s', t, h)
  {
  }

  lemma OthersDoomed(s: State, s': State, e: Event, t: Tid, h: Tid)
    requires Locks(s) && Enabled(s, e) && Effect(s, s', e) && e.tid != h && LocalOk(s, e.tid, s.pc[e.tid])
    requires Doomed(s, t, h) && (e.tid == t && s.pc[t].ClearFlag? ==> e.Run?)
    requires e.Run? && s.pc[e.tid].SetAvail? ==> forall b :: Available(s, b) ==> Available(s', b)
    ensures Doomed(s', t, h)
  {
    assert e.Run? && s.pc[e.tid].GetReserve? ==> !s.shutdown && s.lock == Some(e.tid);
  }

  lemma HopelessStep(s: State, s': State, e: Event, t: Tid)
    requires !e.Interrupt? && Inv(s) && Spare(s) && Enabled(s, e) && s' == Apply(s, e) && Effect(s, s', e)
    requires s.phase == Called(t) && Hopeless(s, t)
    ensures s'.phase == Called(t) && Hopeless(s', t)
  {
    if Stuck(s) {
      StuckStep(s, s', e);
      StuckPhase(s, s', e, t);
    } else if HoldsSome(s, t) {
      HeldNotOver(s, t, t);
      SelfHeldStep(s, s', e, t);
    } else {
      var h :| Doomed(s, t, h);
      HeldNotOver(s, t, h);
      DoomedStep(s, s', e, t, h);
      SamePhase(s, s', e, t);
    }
  }

  /** The phase ends in one statement of the clearing thread. */
  lemma SamePhase(s: State, s': State, e: Event, t: Tid)
    requires Clearing(s) && Effect(s, s', e) && s.phase == Called(t) && !s.pc[t].ClearUnlock?
    ensures s'.phase == Called(t)
  {
  }

  lemma StuckPhase(s: State, s': State, e: Event, t: Tid)
    requires Locks(s) && Clearing(s) && Effect(s, s', e) && s.phase == Called(t) && Stuck(s)
    ensures s'.phase == Called(t)
  {
  }

  lemma SelfHeldStep(s: State, s': State, e: Event, t: Tid)
    requires Locks(s) && Clearing(s) && Effect(s, s', e) && s.phase == Called(t) && !s.pc[t].ClearUnlock? && HoldsSome(s, t)
    ensures s'.phase == Called(t) && HoldsSome(s', t)
  {
    assert InClear(s.pc[t]);
  }

  /** A hopeless clear never ends, as long as waits end as the kernel lets them. */
  lemma {:induction false} HopelessForever(s: State, es: seq<Event>, t: Tid)
    requires Inv(s) && Spare(s) && Valid(s, es) && Plausible(es) && s.phase == Called(t) && Hopeless(s, t)
    ensures Outcome(s, es).phase == Called(t) && Hopeless(Outcome(s, es), t)
    decreases |es|
  {
    if es != [] {
      HopelessNext(s, es[0], t);
      PlausibleRest(es);
      HopelessForever(Apply(s, es[0]), es[1..], t);
    }
  }

  lemma HopelessNext(s: State, e: Event, t: Tid)
    requires Inv(s) && Spare(s) && Enabled(s, e) && !e.Interrupt? && s.phase == Called(t) && Hopeless(s, t)
    ensures var s' := Apply(s, e); Inv(s') && Spare(s') && s'.phase == Called(t) && Hopeless(s', t)
  {
    var s' := Apply(s, e);
    EventEffect(s, s', e);
    StepKeeps(s, e);
    SpareStep(s, s', e);
    HopelessStep(s, s', e, t);
  }

  // The way out: first one thread goes home.

  /** How many statements a thread has before it is idle, if it gives up its waits. */
  function Rank(s: State, p: Pc): nat {
    match p
    case AppendLock(_) => 3
    case AppendLink(_) => 2
    case AppendUnlock => 1
    case GetLock(_) => 8
    case GetCheck(_) => 7
    case GetTest(_, _, _) => 6
    case GetCond(b, _) => if Available(s, b) then 9 else 2
    case GetAsleep(b, _) => if Available(s, b) then 10 else 1
    case GetRelock(_, _) => 8
    case GetRecheck(_, _) => 7
    case GetReserve(_, _) => 5
    case GetMark(_) => 4
    case GetAdvance(_) => 3
    case GetUnlock(_) => 2
    case SetLock(_) => 5
    case SetClear(_) => 4
    case SetAvail(_) => 3
    case SetUnlock(_) => 2
    case SetWake(_) => 1
    case _ => 0
  }

  /** The thread can go home: nothing on its way takes the lock for ever. */
  ghost predicate HomeOk(s: State, h: Tid) {
    && h in s.pc && !InClear(s.pc[h]) && !s.pc[h].GetFault?
    && (s.lock.None? || (s.lock == Some(h) && Critical(s.pc[h])))
    && (s.shutdown ==> !Waiting(s.pc[h]))
    && (!s.shutdown && (s.pc[h].GetLock? || s.pc[h].GetCheck?) ==> s.list != [])
  }

  function HomeEvent(s: State, h: Tid): Event
    requires h in s.pc
  {
    if Asleep(s.pc[h]) then Timeout(h) else Run(h)
  }

  /** What other threads see of a thread on its way home. */
  ghost predicate Passed(s: State, s': State, h: Tid) {
    && s'.pc.Keys == s.pc.Keys && s'.held.Keys == s.held.Keys && h in s.pc && h in s.held
    && (forall u :: u in s.pc && u != h ==> s'.pc[u] == s.pc[u] || s'.pc[u] == Woken(s.pc[u]))
    && (forall u :: u in s.held && u != h ==> s'.held[u] == s.held[u])
    && s'.shutdown == s.shutdown && s'.phase == s.phase
  }

  lemma PassedTwice(s: State, s1: State, s2: State, h: Tid)
    requires Passed(s, s1, h) && Passed(s1, s2, h)
    ensures Passed(s, s2, h)
  {
    forall u | u in s.pc && u != h ensures s2.pc[u] == s.pc[u] || s2.pc[u] == Woken(s.pc[u]) {
      assert s1.pc[u] == s.pc[u] || s1.pc[u] == Woken(s.pc[u]);
    }
  }

  lemma HomeEnters(s: State, s': State, h: Tid)
    requires Knows(s, h) && HomeOk(s, h) && Enabled(s, HomeEvent(s, h)) && s' == Apply(s, HomeEvent(s, h))
    requires s.pc[h].GetLock? || s.pc[h].GetCheck? || s.pc[h].GetTest?
    ensures HomeOk(s', h) && Rank(s', s'.pc[h]) < Rank(s, s.pc[h])
  {
    match s.pc[h]
    case GetLock(_) =>
    case GetCheck(_) =>
    case GetTest(_, _, _) =>
  }

  lemma HomeWaits(s: State, s': State, h: Tid)
    requires Knows(s, h) && HomeOk(s, h) && Enabled(s, HomeEvent(s, h)) && s' == Apply(s, HomeEvent(s, h))
    requires Waiting(s.pc[h])
    ensures HomeOk(s', h) && Rank(s', s'.pc[h]) < Rank(s, s.pc[h])
  {
    match s.pc[h]
    case GetCond(_, _) =>
    case GetAsleep(_, _) =>
    case GetRelock(_, _) =>
    case GetRecheck(_, _) =>
  }

  lemma HomeTakes(s: State, s': State, h: Tid)
    requires Knows(s, h) && HomeOk(s, h) && Enabled(s, HomeEvent(s, h)) && s' == Apply(s, HomeEvent(s, h))
    requires s.pc[h].GetReserve? || s.pc[h].GetMark? || s.pc[h].GetAdvance? || s.pc[h].GetUnlock?
    requires s.pc[h].GetMark? ==> s.pc[h].b in s.flags
    ensures HomeOk(s', h) && Rank(s', s'.pc[h]) < Rank(s, s.pc[h])
  {
    match s.pc[h]
    case GetReserve(_, _) =>
    case GetMark(_) =>
    case GetAdvance(_) =>
    case GetUnlock(_) =>
  }

  lemma HomeAppends(s: State, s': State, h: Tid)
    requires Knows(s, h) && HomeOk(s, h) && Enabled(s, HomeEvent(s, h)) && s' == Apply(s, HomeEvent(s, h))
    requires Adding(s.pc[h]).Some? || s.pc[h].AppendUnlock?
    ensures HomeOk(s', h) && Rank(s', s'.pc[h]) < Rank(s, s.pc[h])
  {
    match s.pc[h]
    case AppendLock(_) =>
    case AppendLink(_) =>
    case AppendUnlock =>
  }

  lemma HomeSets(s: State, s': State, h: Tid)
    requires Knows(s, h) && HomeOk(s, h) && Enabled(s, HomeEvent(s, h)) && s' == Apply(s, HomeEvent(s, h))
    requires s.pc[h].SetLock? || s.pc[h].SetUnlock?
    ensures HomeOk(s', h) && Rank(s', s'.pc[h]) < Rank(s, s.pc[h])
  {
    match s.pc[h]
    case SetLock(_) =>
    case SetUnlock(_) =>
  }

  lemma HomeFrees(s: State, s': State, h: Tid)
    requires Knows(s, h) && HomeOk(s, h) && h in s.held && (s.pc[h].SetClear? || s.pc[h].SetAvail?) && s.pc[h].b in s.flags
    requires (s.pc[h].SetClear? && s' == Unmark(s, h, s.pc[h].b)) || (s.pc[h].SetAvail? && s' == MakeAvailable(s, h, s.pc[h].b))
    ensures HomeOk(s', h) && Rank(s', s'.pc[h]) < Rank(s, s.pc[h])
  {
  }

  lemma HomeWakes(s: State, s': State, h: Tid)
    requires HomeOk(s, h) && Enabled(s, Run(h)) && s.pc[h].SetWake? && s' == Goto(WakeAll(s), h, Idle(Void))
    ensures HomeOk(s', h) && Rank(s', s'.pc[h]) < Rank(s, s.pc[h])
  {
  }

  lemma HomeStep(s: State, s': State, h: Tid, e: Event)
    requires Inv(s) && HomeOk(s, h) && !s.pc[h].Idle? && e == HomeEvent(s, h) && Enabled(s, e) && s' == Apply(s, e)
    ensures HomeOk(s', h) && Rank(s', s'.pc[h]) < Rank(s, s.pc[h]) && Passed(s, s', h)
  {
    Knowledge(s, h);
    EventEffect(s, s', e);
    assert Using(s.pc[h]) ==> Holds(s, h, s.pc[h].b);
    HomeRank(s, s', h, e);
  }

  lemma HomeRank(s: State, s': State, h: Tid, e: Event)
    requires Knows(s, h) && HomeOk(s, h) && !s.pc[h].Idle? && e == HomeEvent(s, h) && Enabled(s, e) && s' == Apply(s, e)
    requires Using(s.pc[h]) ==> s.pc[h].b in s.flags
    ensures HomeOk(s', h) && Rank(s', s'.pc[h]) < Rank(s, s.pc[h])
  {
    var p := s.pc[h];
    if p.GetLock? || p.GetCheck? || p.GetTest? {
      HomeEnters(s, s', h);
    } else if Waiting(p) {
      HomeWaits(s, s', h);
    } else if p.GetReserve? || p.GetMark? || p.GetAdvance? || p.GetUnlock? {
      HomeTakes(s, s', h);
    } else if Adding(p).Some? || p.AppendUnlock? {
      HomeAppends(s, s', h);
    } else if p.SetWake? {
      HomeWakes(s, s', h);
    } else if p.SetClear? || p.SetAvail? {
      HomeFrees(s, s', h);
    } else {
      HomeSets(s, s', h);
    }
  }

  lemma HomeOnce(s: State, h: Tid) returns (e: Event, s': State)
    requires Inv(s) && HomeOk(s, h) && !s.pc[h].Idle?
    ensures Enabled(s, e) && !e.Interrupt? && s' == Apply(s, e) && Inv(s') && HomeOk(s', h) && Passed(s, s', h)
    ensures Rank(s', s'.pc[h]) < Rank(s, s.pc[h])
  {
    e := HomeEvent(s, h);
    assert Enabled(s, e);
    s' := Apply(s, e);
    HomeStep(s, s', h, e);
    StepKeeps(s, e);
  }

  /** A thread that can go home gets there on its own. */
  lemma {:induction false} Home(s: State, h: Tid) returns (es: seq<Event>, s': State)
    requires Inv(s) && HomeOk(s, h)
    ensures Goes(s, es, s') && Inv(s') && s'.lock.None? && Passed(s, s', h) && s'.pc[h].Idle?
    decreases Rank(s, s.pc[h])
  {
    if s.pc[h].Idle? {
      es, s' := [], s;
    } else {
      var e, s1 := HomeOnce(s, h);
      var rest;
      rest, s' := Home(s1, h);
      PassedTwice(s, s1, s', h);
      GoesOne(s, e, s1, rest, s');
      es := [e] + rest;
    }
  }

  // Waiting holders give up; this needs no lock and lets nobody else notice.

  predicate Dozing(s: State, p: Pc) {
    (p.GetAsleep? || p.GetCond?) && !Available(s, p.b)
  }

  lemma DozerHome(s: State, h: Tid) returns (es: seq<Event>)
    requires h in s.pc && h in s.held && Dozing(s, s.pc[h])
    ensures Goes(s, es, Goto(s, h, Idle(Busy)))
  {
    var end := Goto(s, h, Idle(Busy));
    if s.pc[h].GetAsleep? {
      GoesOne(s, Timeout(h), end, [], end);
      es := [Timeout(h)] + [];
    } else {
      var s1 := Goto(s, h, GetAsleep(s.pc[h].b, s.pc[h].c));
      assert Goto(s1, h, Idle(Busy)) == end;
      GoesOne(s1, Timeout(h), end, [], end);
      GoesOne(s, Run(h), s1, [Timeout(h)] + [], end);
      es := [Run(h)] + ([Timeout(h)] + []);
    }
  }

  /** Some dozing threads have gone idle, and nothing else has changed. */
  ghost predicate Roused(s: State, s': State) {
    && s' == s.(pc := s'.pc) && s'.pc.Keys == s.pc.Keys
    && (forall u :: u in s.pc ==> s'.pc[u] == s.pc[u] || (s'.pc[u].Idle? && Dozing(s, s.pc[u])))
  }

  lemma {:induction false} AllRoused(s: State, todo: set<Tid>) returns (es: seq<Event>, s': State)
    requires s.held.Keys == s.pc.Keys && todo <= s.pc.Keys && forall u :: u in s.pc && Dozing(s, s.pc[u]) ==> u in todo
    ensures Goes(s, es, s') && Roused(s, s') && forall u :: u in s'.pc ==> !Dozing(s', s'.pc[u])
    decreases todo
  {
    if h :| h in todo && Dozing(s, s.pc[h]) {
      var first := DozerHome(s, h);
      var s1 := Goto(s, h, Idle(Busy));
      StillDozing(s, s1, h, todo);
      var rest;
      rest, s' := AllRoused(s1, todo - {h});
      RousedTwice(s, s1, s');
      GoesThen(s, first, s1, rest, s');
      es := first + rest;
    } else {
      es, s' := [], s;
    }
  }

  lemma StillDozing(s: State, s1: State, h: Tid, todo: set<Tid>)
    requires h in s.pc && Dozing(s, s.pc[h]) && s1 == Goto(s, h, Idle(Busy)) && h in todo
    requires forall u :: u in s.pc && Dozing(s, s.pc[u]) ==> u in todo
    ensures Roused(s, s1) && forall u :: u in s1.pc && Dozing(s1, s1.pc[u]) ==> u in todo - {h}
  {
  }

  lemma RousedTwice(s: State, s1: State, s2: State)
    requires Roused(s, s1) && Roused(s1, s2)
    ensures Roused(s, s2)
  {
  }

  // clear runs as far as it gets.

  /** Only the clearing thread moved; it waits with the lock dropped. */
  ghost predicate Paused(s: State, s': State, t: Tid) {
    && s'.lock.None? && s'.phase == s.phase && s'.shutdown && s'.flags == s.flags && s'.held == s.held
    && t in s.pc && t in s'.pc && s'.pc == s.pc[t := s'.pc[t]]
  }

  lemma Ends(s: State, t: Tid) returns (es: seq<Event>, s': State)
    requires t in s.pc && t in s.held && s.pc[t].ClearUnlock?
    ensures Goes(s, es, s') && s'.phase.Finished?
  {
    s' := Release(s, t, Idle(Void)).(phase := Finished);
    SoloStep(s, t, s', 0, s');
    SoloPlausible(t, 1);
    es := Solo(t, 1);
  }

  /** From a test: to the next wait, or to the end; to the end if every buffer is available. */
  lemma TurnTest(s: State, t: Tid) returns (es: seq<Event>, s': State)
    requires t in s.pc && t in s.held && s.lock == Some(t) && s.shutdown && Distinct(s.list)
    requires s.pc[t].ClearTest? && Walking(s, s.pc[t].b, s.pc[t].tpos)
    ensures Goes(s, es, s') && (s'.phase.Finished? || Paused(s, s', t))
    ensures (forall b :: b in s.list ==> Available(s, b)) ==> s'.phase.Finished?
  {
    var p := s.pc[t];
    var n := SweepAlone(s, t, p.tpos, p.code);
    SoloPlausible(t, n);
    var free := FreeBuffers(s);
    var r := SweepFrom(s.list, free, p.tpos, p.code.Positive?);
    SweepStops(s.list, free, p.tpos, p.code.Positive?);
    var s1 := AfterSweep(s, t, r);
    if r.at.Some? {
      BusyLeft(s.list, free);
      es, s' := Solo(t, n), s1;
    } else {
      var rest;
      rest, s' := Ends(s1, t);
      GoesThen(s, Solo(t, n), s1, rest, s');
      es := Solo(t, n) + rest;
    }
  }

  lemma {:induction false} BusyLeft<T>(l: seq<T>, free: set<T>)
    ensures (forall x :: x in l ==> x in free) ==> FromBusy(l, free) == []
  {
    if l != [] {
      BusyLeft(l[1..], free);
    }
  }

  /** clear with the lock in hand gets to its next wait or to its end. */
  lemma Turn(s: State, t: Tid) returns (es: seq<Event>, s': State)
    requires Inv(s) && s.phase == Called(t) && s.lock == Some(t) && Critical(s.pc[t])
    ensures Goes(s, es, s') && (s'.phase.Finished? || Paused(s, s', t))
    ensures (forall b :: b in s.list ==> Available(s, b)) ==> s'.phase.Finished?
  {
    assert InClear(s.pc[t]) && SweepOk(s, s.pc[t]);
    if s.pc[t].ClearUnlock? {
      es, s' := Ends(s, t);
    } else if s.pc[t].ClearTest? {
      es, s' := TurnTest(s, t);
    } else {
      var s1 := TurnFirst(s, t);
      es, s' := TurnOn(s, t, s1);
    }
  }

  /** The flag, or one deletion, leads to a test or to the end. */
  ghost predicate Turned(s: State, t: Tid, s1: State) {
    && t in s.pc && t in s1.pc && s1.pc == s.pc[t := s1.pc[t]] && (s1.pc[t].ClearTest? || s1.pc[t].ClearUnlock?)
    && s1.lock == s.lock && s1.held == s.held && s1.flags == s.flags && s1.phase == s.phase && s1.shutdown
    && Distinct(s1.list) && SweepOk(s1, s1.pc[t]) && forall b :: b in s1.list ==> b in s.list
  }

  lemma TurnFirst(s: State, t: Tid) returns (s1: State)
    requires Inv(s) && t in s.pc && (s.pc[t].ClearFlag? || s.pc[t].ClearDelete?)
    ensures Goes(s, Solo(t, 1), s1) && Turned(s, t, s1)
  {
    SoloPlausible(t, 1);
    if s.pc[t].ClearFlag? {
      s1 := Shut(s, t);
      ShutRuns(s, t);
      ShutData(s, s1, t);
    } else {
      var p := s.pc[t];
      s1 := Delete(s, t, p.b, p.tpos, p.code);
      DeleteRuns(s, t, p.b, p.tpos, p.code);
      DeleteData(s, s1, t, p.b, p.tpos, p.code);
      DeleteShrinks(s, t);
    }
    assert SweepOk(s1, s1.pc[t]);
  }

  lemma DeleteShrinks(s: State, t: Tid)
    requires t in s.pc && s.pc[t].ClearDelete? && Clearing(s)
    ensures var p := s.pc[t]; forall b :: b in Delete(s, t, p.b, p.tpos, p.code).list ==> b in s.list
  {
  }

  /** One statement more, and then the rest of the stretch. */
  lemma TurnOn(s: State, t: Tid, s1: State) returns (es: seq<Event>, s': State)
    requires Goes(s, Solo(t, 1), s1) && t in s.held && s.lock == Some(t) && Turned(s, t, s1)
    ensures Goes(s, es, s') && (s'.phase.Finished? || Paused(s, s', t))
    ensures (forall b :: b in s.list ==> Available(s, b)) ==> s'.phase.Finished?
  {
    var rest;
    if s1.pc[t].ClearTest? {
      rest, s' := TurnTest(s1, t);
    } else {
      rest, s' := Ends(s1, t);
    }
    GoesThen(s, Solo(t, 1), s1, rest, s');
    es := Solo(t, 1) + rest;
  }

  // Every holder goes home and releases what it holds.

  /** The lock is free, the clearing thread holds nothing, and after the flag no holder is in a wait. */
  ghost predicate Settled(s: State, t: Tid) {
    Inv(s) && Calm(s, t) && s.lock.None?
  }

  ghost predicate Calm(s: State, t: Tid) {
    && s.phase == Called(t) && !HoldsSome(s, t)
    && (s.shutdown ==> forall u :: u in s.pc && HoldsSome(s, u) ==> !Waiting(s.pc[u]))
  }

  /** The holders that are inside a call. */
  ghost function Engaged(s: State): set<Tid> {
    set u | u in s.pc && HoldsSome(s, u) && !s.pc[u].Idle? && !InClear(s.pc[u])
  }

  lemma HolderCanGoHome(s: State, t: Tid, h: Tid)
    requires Settled(s, t) && h in Engaged(s)
    ensures HomeOk(s, h) && h != t
  {
    assert InClear(s.pc[t]) && LocalOk(s, h, s.pc[h]);
    var b :| b in s.held[h];
    assert Holds(s, h, b);
  }

  /** A thread that passed leaves the others calm, and is not busy any more. */
  lemma HomeCalms(s: State, s': State, t: Tid, h: Tid)
    requires Calm(s, t) && Passed(s, s', h) && s'.pc[h].Idle? && h != t
    ensures Calm(s', t) && Engaged(s') <= Engaged(s) - {h}
  {
    forall u | u in s'.pc && HoldsSome(s', u) && u != h ensures HoldsSome(s, u) && Similar(s.pc[u], s'.pc[u]) {
      WokenSimilar(s.pc[u]);
    }
    forall u | u in Engaged(s') ensures u in Engaged(s) - {h} {
      WokenSimilar(s.pc[u]);
    }
  }

  /** Alike for the purposes of going home. */
  predicate Similar(p: Pc, p': Pc) {
    Waiting(p') == Waiting(p) && p'.Idle? == p.Idle? && InClear(p') == InClear(p)
  }

  lemma WokenSimilar(p: Pc)
    ensures Similar(p, Woken(p)) && Similar(p, p)
  {
  }

  lemma {:induction false} HoldersHome(s: State, t: Tid) returns (es: seq<Event>, s': State)
    requires Settled(s, t)
    ensures Goes(s, es, s') && Settled(s', t) && Engaged(s') == {}
    decreases Engaged(s)
  {
    if h :| h in Engaged(s) {
      HolderCanGoHome(s, t, h);
      var first, s1 := Home(s, h);
      HomeCalms(s, s1, t, h);
      var rest;
      rest, s' := HoldersHome(s1, t);
      GoesThen(s, first, s1, rest, s');
      es := first + rest;
    } else {
      es, s' := [], s;
    }
  }

  ghost function Taken(s: State): set<Buf> {
    set b | b in s.flags && !s.flags[b].available
  }

  /** A whole set_free by an idle holder. */
  lemma SetsFree(s: State, h: Tid, b: Buf) returns (es: seq<Event>, s': State)
    requires Ready(s, h) && b in s.held[h] && b in s.flags
    ensures Goes(s, es, s') && Passed(s, s', h) && s'.pc[h].Idle? && s'.lock.None?
    ensures s'.held[h] == s.held[h] - {b} && s'.flags == s.flags[b := Flags(true, false)]
  {
    SetAlone(s, h, b);
    var s1 := s.(flags := s.flags[b := Flags(true, false)], held := s.held[h := s.held[h] - {b}],
                 released := s.released + [b], pc := s.pc[h := SetWake(b)]);
    s' := Goto(WakeAll(s1), h, Idle(Void));
    SoloStep(s1, h, s', 0, s');
    SoloPlausible(h, 1);
    SoloPlausible(h, 2);
    GoesThen(s, [CallSet(h, b)] + Solo(h, 2) + Solo(h, 2), s1, Solo(h, 1), s');
    es := [CallSet(h, b)] + Solo(h, 2) + Solo(h, 2) + Solo(h, 1);
  }

  lemma FreedCalms(s: State, s': State, t: Tid, h: Tid, b: Buf)
    requires Calm(s, t) && Engaged(s) == {} && h != t && Passed(s, s', h) && s'.pc[h].Idle?
    requires s'.flags == s.flags[b := Flags(true, false)] && b in s.flags
    ensures Calm(s', t) && Engaged(s') == {} && Taken(s') == Taken(s) - {b}
  {
    HomeCalms(s, s', t, h);
  }

  lemma TakenByIdle(s: State, t: Tid, b: Buf) returns (h: Tid)
    requires Settled(s, t) && Engaged(s) == {} && b in Taken(s)
    ensures h != t && Ready(s, h) && b in s.held[h]
  {
    assert HasHolder(s, b);
    h :| Holds(s, h, b);
    assert h !in Engaged(s);
  }

  lemma {:induction false} AllFreed(s: State, t: Tid) returns (es: seq<Event>, s': State)
    requires Settled(s, t) && Engaged(s) == {}
    ensures Goes(s, es, s') && Settled(s', t) && Taken(s') == {}
    decreases Taken(s)
  {
    if b :| b in Taken(s) {
      var h := TakenByIdle(s, t, b);
      var first, s1 := SetsFree(s, h, b);
      RunKeeps(s, first);
      FreedCalms(s, s1, t, h, b);
      var rest;
      rest, s' := AllFreed(s1, t);
      GoesThen(s, first, s1, rest, s');
      es := first + rest;
    } else {
      es, s' := [], s;
    }
  }

  // Then clear runs to its end.

  /** clear, outside the lock, on its way back to it. */
  lemma Returns(s: State, t: Tid) returns (es: seq<Event>, s': State)
    requires t in s.pc && t in s.held && s.lock.None? && AtBuffer(s.pc[t]) && !Critical(s.pc[t]) && Available(s, s.pc[t].b)
    ensures Goes(s, es, s') && t in s'.pc && s' == s.(lock := Some(t), pc := s.pc[t := s'.pc[t]])
    ensures s'.pc[t].ClearTest?
  {
    var p := s.pc[t];
    var q := if p.ClearRelock? then p else ClearRelock(p.b, p.tpos, Positive);
    var s1 := Goto(s, t, q);
    es := Relocks(s, t, q);
    s' := Acquire(s1, t, ClearTest(q.b, q.tpos, q.code));
    LockRuns(s1, t, ClearTest(q.b, q.tpos, q.code));
    SoloPlausible(t, 1);
    GoesThen(s, es, s1, Solo(t, 1), s');
    es := es + Solo(t, 1);
  }

  lemma Relocks(s: State, t: Tid, q: Pc) returns (es: seq<Event>)
    requires t in s.pc && t in s.held && AtBuffer(s.pc[t]) && !Critical(s.pc[t]) && Available(s, s.pc[t].b)
    requires q == if s.pc[t].ClearRelock? then s.pc[t] else ClearRelock(s.pc[t].b, s.pc[t].tpos, Positive)
    ensures Goes(s, es, Goto(s, t, q))
  {
    var s1 := Goto(s, t, q);
    if s.pc[t].ClearRelock? {
      assert s1 == s;
      es := [];
    } else {
      var e := if s.pc[t].ClearCond? then Run(t) else Timeout(t);
      GoesOne(s, e, s1, [], s1);
      es := [e] + [];
    }
  }

  lemma ClearRuns(s: State, t: Tid) returns (es: seq<Event>, s': State)
    requires Settled(s, t) && Taken(s) == {}
    ensures Goes(s, es, s') && s'.phase.Finished?
  {
    assert InClear(s.pc[t]) && SweepOk(s, s.pc[t]);
    assert forall b :: b in s.list ==> b in s.flags && b !in Taken(s);
    var first, s1;
    if s.pc[t].ClearLock? {
      s1 := Acquire(s, t, ClearFlag);
      LockRuns(s, t, ClearFlag);
      SoloPlausible(t, 1);
      first := Solo(t, 1);
    } else {
      first, s1 := Returns(s, t);
    }
    RunKeeps(s, first);
    var rest;
    rest, s' := Turn(s1, t);
    GoesThen(s, first, s1, rest, s');
    es := first + rest;
  }

  lemma PausedHope(s: State, s': State, t: Tid)
    requires s.phase == Called(t) && !Hopeless(s, t) && Paused(s, s', t)
    requires s.shutdown || s.pc[t].ClearFlag?
    ensures !Hopeless(s', t)
  {
    forall h ensures !Doomed(s', t, h) {
      assert !Doomed(s, t, h);
    }
  }

  lemma RousedHope(s: State, s': State, t: Tid)
    requires Clearing(s) && s.phase == Called(t) && !Hopeless(s, t) && Roused(s, s')
    ensures !Hopeless(s', t)
  {
    assert InClear(s.pc[t]);
    forall h ensures !Doomed(s', t, h) {
      assert !Doomed(s, t, h);
    }
  }

  /** With hope and without dozing threads, the holders are calm, ... */
  lemma HopeIsCalm(s: State, t: Tid)
    requires Locks(s) && s.phase == Called(t) && t in s.pc && !Hopeless(s, t)
    requires forall u :: u in s.pc ==> !Dozing(s, s.pc[u])
    ensures Calm(s, t)
  {
    forall u | s.shutdown && u in s.pc && HoldsSome(s, u) ensures !Waiting(s.pc[u]) {
      assert !Doomed(s, t, u);
    }
  }

  /** ... and the owner of the lock can go home. */
  lemma OwnerCanGoHome(s: State, t: Tid)
    requires Clearing(s) && s.phase == Called(t) && !Stuck(s) && s.lock.Some? && s.lock.value in s.pc && s.lock != Some(t)
    ensures HomeOk(s, s.lock.value)
  {
  }

  lemma Settles(s: State, t: Tid) returns (es: seq<Event>, s': State)
    requires Inv(s) && s.phase == Called(t) && !Hopeless(s, t) && s.lock != Some(t)
    ensures Goes(s, es, s') && Settled(s', t)
  {
    var first, s1 := AllRoused(s, s.pc.Keys);
    RunKeeps(s, first);
    RousedHope(s, s1, t);
    HopeIsCalm(s1, t);
    if s1.lock.None? {
      es, s' := first, s1;
    } else {
      var u := s1.lock.value;
      OwnerCanGoHome(s1, t);
      var rest;
      rest, s' := Home(s1, u);
      HomeCalms(s1, s', t, u);
      GoesThen(s, first, s1, rest, s');
      es := first + rest;
    }
  }

  lemma FinishesUnlocked(s: State, t: Tid) returns (es: seq<Event>, s': State)
    requires Inv(s) && s.phase == Called(t) && !Hopeless(s, t) && s.lock != Some(t)
    ensures Goes(s, es, s') && s'.phase.Finished?
  {
    var e1, s1 := Settles(s, t);
    var e2, s2 := HoldersHome(s1, t);
    var e3, s3 := AllFreed(s2, t);
    var e4;
    e4, s' := ClearRuns(s3, t);
    GoesThen(s, e1, s1, e2, s2);
    GoesThen(s, e1 + e2, s2, e3, s3);
    GoesThen(s, e1 + e2 + e3, s3, e4, s');
    es := e1 + e2 + e3 + e4;
  }

  lemma Finishes(s: State, t: Tid) returns (es: seq<Event>, s': State)
    requires Inv(s) && s.phase == Called(t) && !Hopeless(s, t)
    ensures Goes(s, es, s') && s'.phase.Finished?
  {
    if s.lock == Some(t) {
      assert InClear(s.pc[t]);
      var first, s1 := Turn(s, t);
      if s1.phase.Finished? {
        es, s' := first, s1;
      } else {
        RunKeeps(s, first);
        PausedHope(s, s1, t);
        var rest;
        rest, s' := FinishesUnlocked(s1, t);
        GoesThen(s, first, s1, rest, s');
        es := first + rest;
      }
    } else {
      es, s' := FinishesUnlocked(s, t);
    }
  }

  /**
   * A running clear has a continuation in which it ends if and only if the
   * lock is not lost, its own thread holds no buffer, and after the flag no
   * holder of a buffer is bound to leave by line 251.
   */
  lemma ClearCanFinishExactly(s: State, t: Tid)
    requires Reachable(s) && s.phase == Called(t)
    ensures (exists es :: Valid(s, es) && Plausible(es) && Outcome(s, es).phase.Finished?) <==> !Hopeless(s, t)
  {
    ReachableSpare(s);
    if Hopeless(s, t) {
      forall es | Valid(s, es) && Plausible(es) ensures !Outcome(s, es).phase.Finished? {
        HopelessForever(s, es, t);
      }
    } else {
      var es, end := Finishes(s, t);
      assert Valid(s, es) && Plausible(es) && Outcome(s, es) == end && Outcome(s, es).phase.Finished?;
    }
  }

  // Each of these states can be reached.

  /** A thread that holds a buffer calls clear. */
  lemma SelfClear()
    ensures exists s :: Reachable(s) && s.phase == Called(1) && HoldsSome(s, 1) && Hopeless(s, 1)
  {
    var i := OneTaken();
    ClearBlocks(i, 1, 7);
    var s := i.(shutdown := true, phase := Called(1), pc := i.pc[1 := ClearCond(7, Second(i.list))]);
    ReachableThen(i, [CallClear(1)] + Solo(1, 1) + Solo(1, 2), s);
    assert HoldsSome(s, 1);
  }

  lemma Appends(s: State, t: Tid, b: Buf) returns (s': State)
    requires Reachable(s) && Ready(s, t) && b !in s.flags && b !in s.pending && !s.shutdown && s.phase.NotCalled?
    ensures Reachable(s')
    ensures s' == s.(list := s.list + [b], next := if s.list == [] then Some(b) else s.next,
                     flags := s.flags[b := Flags(true, false)], pc := s.pc[t := Idle(Void)])
  {
    AppendAlone(s, t, b);
    s' := s.(list := s.list + [b], next := if s.list == [] then Some(b) else s.next,
             flags := s.flags[b := Flags(true, false)], pc := s.pc[t := Idle(Void)]);
    ReachableThen(s, [CallAppend(t, b)] + Solo(t, 3), s');
  }

  lemma Gets(s: State, t: Tid, b: Buf) returns (s': State)
    requires Reachable(s) && Ready(s, t) && !s.shutdown && s.next == Some(b) && b in s.list && Available(s, b)
    ensures Reachable(s')
    ensures s' == s.(next := Some(Successor(s.list, b)), flags := s.flags[b := Flags(false, true)],
                     held := s.held[t := s.held[t] + {b}], log := s.log + [Reservation(t, b)], pc := s.pc[t := Idle(Got(b))])
  {
    GetAlone(s, t, b);
    s' := s.(next := Some(Successor(s.list, b)), flags := s.flags[b := Flags(false, true)],
             held := s.held[t := s.held[t] + {b}], log := s.log + [Reservation(t, b)], pc := s.pc[t := Idle(Got(b))]);
    ReachableThen(s, [CallGet(t)] + Solo(t, 2) + Solo(t, 3) + Solo(t, 2), s');
  }

  lemma FirstListed() returns (s: State)
    ensures Reachable(s) && !s.shutdown && s.phase.NotCalled? && s.list == [7] && s.next == Some(7) && s.pending == {}
    ensures Ready(s, 0) && Ready(s, 1) && Ready(s, 2) && Ready(s, 3) && Available(s, 7) && 8 !in s.flags
  {
    InitReachable({0, 1, 2, 3});
    s := Appends(Init({0, 1, 2, 3}), 0, 7);
  }

  /** Two buffers are listed, and nobody is inside a call. */
  lemma TwoListed() returns (s: State)
    ensures Reachable(s) && !s.shutdown && s.phase.NotCalled? && s.list == [7, 8] && s.next == Some(7)
    ensures Ready(s, 1) && Ready(s, 2) && Ready(s, 3) && Available(s, 7) && Available(s, 8)
  {
    var i := FirstListed();
    s := Appends(i, 0, 8);
  }

  lemma FirstTaken() returns (s: State)
    ensures Reachable(s) && !s.shutdown && s.phase.NotCalled? && s.list == [7, 8] && s.next == Some(8)
    ensures Ready(s, 1) && Ready(s, 2) && Ready(s, 3) && 7 in s.held[1]
    ensures 7 in s.flags && !s.flags[7].available && Available(s, 8)
  {
    assert Successor([7, 8], 7) == 8;
    var i := TwoListed();
    s := Gets(i, 1, 7);
  }

  /** Threads 1 and 3 have taken them. */
  lemma TwoTaken() returns (s: State)
    ensures Reachable(s) && !s.shutdown && s.phase.NotCalled? && s.list == [7, 8] && s.next == Some(7)
    ensures Ready(s, 1) && Ready(s, 2) && Ready(s, 3) && 7 in s.held[1] && 8 in s.held[3]
    ensures 7 in s.flags && !s.flags[7].available
  {
    assert Successor([7, 8], 8) == 7;
    var i := FirstTaken();
    s := Gets(i, 3, 8);
  }

  /** Thread 3 waits for the first buffer. */
  lemma HolderWaits() returns (s: State)
    ensures Reachable(s) && !s.shutdown && s.phase.NotCalled? && s.list == [7, 8] && Ready(s, 1) && Ready(s, 2)
    ensures 7 in s.held[1] && 7 in s.flags && !s.flags[7].available
    ensures 3 in s.pc && s.pc[3].GetCond? && s.pc[3].b == 7 && 3 in s.held && 8 in s.held[3]
  {
    var i := TwoTaken();
    GetBlocks(i, 3, 7);
    s := i.(pc := i.pc[3 := GetCond(7, Call(|i.log|, |i.log|, 0))]);
    ReachableThen(i, [CallGet(3)] + Solo(3, 2) + Solo(3, 1), s);
  }

  /** Thread 2 has raised the flag and waits for it too. */
  lemma HolderAndClearWait() returns (s: State)
    ensures Reachable(s) && s.shutdown && s.phase == Called(2) && Ready(s, 1) && 2 in s.pc
    ensures 7 in s.held[1] && 7 in s.flags
    ensures 3 in s.pc && s.pc[3].GetCond? && s.pc[3].b == 7 && 3 in s.held && 8 in s.held[3]
  {
    var i := HolderWaits();
    ClearBlocks(i, 2, 7);
    s := i.(shutdown := true, phase := Called(2), pc := i.pc[2 := ClearCond(7, Second(i.list))]);
    ReachableThen(i, [CallClear(2)] + Solo(2, 1) + Solo(2, 2), s);
  }

  /** A holder waits for a buffer that is released after the flag: it can only take the lock away. */
  lemma DoomedHolder()
    ensures exists s :: Reachable(s) && s.phase == Called(2) && Doomed(s, 2, 3) && Hopeless(s, 2) && s.lock.None?
  {
    var i := HolderAndClearWait();
    SetAlone(i, 1, 7);
    var s := i.(flags := i.flags[7 := Flags(true, false)], held := i.held[1 := i.held[1] - {7}],
                released := i.released + [7], pc := i.pc[1 := SetWake(7)]);
    ReachableThen(i, [CallSet(1, 7)] + Solo(1, 2) + Solo(1, 2), s);
    assert 8 in s.held[3] && Doomed(s, 2, 3);
  }
}
