/** What the buffer list protocol guarantees in every reachable state and over every interleaving. */
module ProtocolTheorems {
  import opened Common
  import opened Circular
  import opened Protocol
  import opened ProtocolInvariant
  import opened ProtocolSteps
  import opened ProtocolEffects
  import opened ProtocolRuns

  // Destruction.

  /** The event releases the memory of b (line 104). */
  predicate Destroys(s: State, e: Event, b: Buf) {
    e.Run? && e.tid in s.pc && s.pc[e.tid].ClearDelete? && s.pc[e.tid].b == b && s.pc[e.tid].code.Positive?
  }

  /** The thread will still read or write the state of b under the lock, or owns b. */
  ghost predicate Touches(s: State, t: Tid, b: Buf) {
    Holds(s, t, b) || (t in s.pc && (AtCursor(s.pc[t]) || Using(s.pc[t])) && s.pc[t].b == b)
  }

  /** A buffer is destroyed only when it is available, listed, not destroyed before and in nobody's hands. */
  lemma DestroyedWhenFree(s: State, e: Event, b: Buf)
    requires Reachable(s) && Enabled(s, e) && Destroys(s, e, b)
    ensures Available(s, b) && b in s.list && b !in s.destroyed
    ensures forall t :: !Touches(s, t, b)
    ensures Apply(s, e).destroyed == s.destroyed + {b} && b !in Apply(s, e).list
  {
    ReachableInv(s);
    DeletedWasAvailable(s, e.tid);
    DeleteRemoves(s, e.tid);
    forall t ensures !Touches(s, t, b) {
      AvailableUntouched(s, e.tid, b, t);
    }
  }

  lemma DeleteRemoves(s: State, t: Tid)
    requires Clearing(s) && Distinct(s.list) && Enabled(s, Run(t)) && s.pc[t].ClearDelete?
    ensures var p := s.pc[t];
            Exec(s, t).destroyed == (if p.code.Positive? then s.destroyed + {p.b} else s.destroyed) && p.b !in Exec(s, t).list
  {
    assert SweepOk(s, s.pc[t]);
    WithoutFirst(s.list);
  }

  lemma AvailableUntouched(s: State, owner: Tid, b: Buf, t: Tid)
    requires Locks(s) && Locals(s) && Holding(s) && Available(s, b) && owner in s.pc && s.pc[owner].ClearDelete?
    ensures !Touches(s, t, b)
  {
    if t in s.pc {
      assert LocalOk(s, t, s.pc[t]);
    }
  }

  /** Once destroyed a buffer is never listed, held, reserved or released again. */
  lemma DestroyedStaysDead(s: State, b: Buf, t: Tid)
    requires Reachable(s) && b in s.destroyed
    ensures b !in s.list && Available(s, b) && !Touches(s, t, b)
  {
    ReachableInv(s);
    assert !HasHolder(s, b);
    if t in s.pc {
      assert LocalOk(s, t, s.pc[t]);
    }
  }

  /** clear unlinks a buffer only when it is available, however often its wait timed out. */
  lemma ClearNeverMovesOn(s: State, e: Event, b: Buf)
    requires Reachable(s) && Enabled(s, e) && b in s.list && b !in Apply(s, e).list
    ensures e.Run? && s.pc[e.tid].ClearDelete? && s.pc[e.tid].b == b && Available(s, b)
    ensures b in Apply(s, e).destroyed <==> s.pc[e.tid].code.Positive?
    ensures b in Apply(s, e).leaked <==> !s.pc[e.tid].code.Positive?
  {
    ReachableInv(s);
    EventEffect(s, Apply(s, e), e);
    OnlyDeleteUnlinks(s, Apply(s, e), e, b);
    DeletedWasAvailable(s, e.tid);
  }

  lemma OnlyDeleteUnlinks(s: State, s': State, e: Event, b: Buf)
    requires Effect(s, s', e) && b in s.list && b !in s'.list
    ensures e.Run? && s.pc[e.tid].ClearDelete? && s.pc[e.tid].b == b
    ensures s'.destroyed == if s.pc[e.tid].code.Positive? then s.destroyed + {b} else s.destroyed
    ensures s'.leaked == if s.pc[e.tid].code.Positive? then s.leaked else s.leaked + {b}
  {
  }

  lemma DeletedWasAvailable(s: State, t: Tid)
    requires Partition(s) && Clearing(s) && t in s.pc && s.pc[t].ClearDelete?
    ensures Available(s, s.pc[t].b) && s.pc[t].b in s.list && s.pc[t].b !in s.destroyed && s.pc[t].b !in s.leaked
  {
    assert SweepOk(s, s.pc[t]);
  }

  // After clear.

  /**
   * After clear exactly the buffers are left that were linked when clear had
   * already read the sentinel as its next stop, so the list is empty if and
   * only if there were none.
   */
  lemma ClearedList(s: State)
    requires Reachable(s) && s.phase.Finished?
    ensures forall b :: b in s.list <==> b in s.behind
    ensures s.list == [] <==> s.behind == {}
  {
    ReachableInv(s);
    if s.list != [] {
      assert s.list[0] in s.list;
    }
  }

  // Waiting and waking.

  /** If a thread sleeps on an available buffer, a set_free still has its wake-up to do, and can do it. */
  lemma NoLostWakeup(s: State, t: Tid, b: Buf)
    requires Reachable(s) && t in s.pc && SleepsOn(s.pc[t], b) && Available(s, b)
    ensures exists u :: u in s.pc && Waker(s.pc[u], b) && Enabled(s, Run(u))
  {
    ReachableInv(s);
    WakerCanRun(s, t, b);
  }

  lemma WakerCanRun(s: State, t: Tid, b: Buf)
    requires Wakeups(s) && s.held.Keys == s.pc.Keys && t in s.pc && SleepsOn(s.pc[t], b) && Available(s, b)
    ensures exists u :: u in s.pc && Waker(s.pc[u], b) && Enabled(s, Run(u))
  {
    assert HasWaker(s, b);
    var u :| u in s.pc && Waker(s.pc[u], b);
    assert Enabled(s, Run(u));
  }

  /** The wake-up reaches every sleeper: after the releaser's remaining statements nobody sleeps. */
  lemma WakeupArrives(s: State, u: Tid, b: Buf)
    requires s.held.Keys == s.pc.Keys && u in s.pc && Waker(s.pc[u], b)
    ensures var es := if s.pc[u].SetUnlock? then [Run(u), Run(u)] else [Run(u)];
            Valid(s, es) && forall t :: t in Outcome(s, es).pc ==> !Asleep(Outcome(s, es).pc[t])
    decreases s.pc[u].SetUnlock?
  {
    if s.pc[u].SetUnlock? {
      var s1 := Apply(s, Run(u));
      assert s1.pc[u] == SetWake(b);
      WakeupArrives(s1, u, b);
      assert [Run(u), Run(u)][1..] == [Run(u)];
    } else {
      NobodySleeps(s, u);
      var s1 := Apply(s, Run(u));
      assert [Run(u)][1..] == [];
      assert Outcome(s, [Run(u)]) == Outcome(s1, []) == s1;
    }
  }

  lemma NobodySleeps(s: State, u: Tid)
    requires Enabled(s, Run(u)) && s.pc[u].SetWake?
    ensures forall t :: t in Apply(s, Run(u)).pc ==> !Asleep(Apply(s, Run(u)).pc[t])
  {
    var s1 := Apply(s, Run(u));
    forall t | t in s1.pc ensures !Asleep(s1.pc[t]) {
      WokenStays(s.pc[t]);
    }
  }

  /** A get_free loop went round again at most as often as other threads made reservations during the call. */
  lemma RetriesBounded(s: State, t: Tid)
    requires Reachable(s) && t in s.pc && Calling(s.pc[t])
    ensures var c := s.pc[t].c;
            c.start <= |s.log| && c.retries <= |s.log| - c.start
            && forall i :: c.start <= i < |s.log| ==> s.log[i].tid != t
  {
    ReachableInv(s);
    assert HistoryOk(s, t, s.pc[t]);
  }

  /** Each time the loop goes round again after a wait, another thread reserved between unlock and relock. */
  lemma RoundAgainMeansReserved(s: State, t: Tid)
    requires Reachable(s) && t in s.pc && s.pc[t].GetTest? && s.pc[t].again && !Available(s, s.pc[t].b)
    ensures exists i :: s.pc[t].c.snap <= i < |s.log| && s.log[i].tid != t
  {
    ReachableInv(s);
    assert HistoryOk(s, t, s.pc[t]) && LocalOk(s, t, s.pc[t]);
    assert s.log[s.pc[t].c.snap].tid != t;
  }

  // Ownership and bits.

  /** A listed buffer is unavailable exactly when some client holds it, and then that client is the only one. */
  lemma ExactlyOneHolder(s: State, b: Buf)
    requires Reachable(s) && b in s.list
    ensures !Available(s, b) <==> exists t :: Holds(s, t, b)
    ensures forall t, u :: Holds(s, t, b) && Holds(s, u, b) ==> t == u
  {
    ReachableInv(s);
    if !Available(s, b) {
      assert HasHolder(s, b);
    }
  }

  /** Whenever the lock is free each created buffer has exactly one of AVAILABLE and WAITING set. */
  lemma ExactlyOneBit(s: State, b: Buf)
    requires Reachable(s) && s.lock.None? && b in s.flags
    ensures s.flags[b].available <==> !s.flags[b].waiting
  {
    ReachableInv(s);
  }

  /** Created buffers are listed, being appended, destroyed or leaked: none is lost, none counted twice. */
  lemma Conservation(s: State)
    requires Reachable(s)
    ensures |s.flags.Keys| == |s.list| + |s.pending| + |s.destroyed| + |s.leaked|
  {
    ReachableInv(s);
    PartitionSize(s);
  }

  lemma PartitionSize(s: State)
    requires Partition(s)
    ensures |s.flags.Keys| == |s.list| + |s.pending| + |s.destroyed| + |s.leaked|
  {
    DistinctSize(s.list);
    var ab := Elements(s.list) + s.pending;
    var cd := s.destroyed + s.leaked;
    assert Elements(s.list) !! s.pending && s.destroyed !! s.leaked && ab !! cd;
    assert s.flags.Keys == ab + cd;
  }

  // The cursor.

  /** Before shutdown the cursor of a non-empty list is a list member; afterwards nobody follows it. */
  lemma CursorValid(s: State, t: Tid)
    requires Reachable(s)
    ensures !s.shutdown && s.list != [] ==> s.next.Some? && s.next.value in s.list
    ensures t in s.pc && AtCursor(s.pc[t]) ==> !s.shutdown && s.next == Some(s.pc[t].b) && s.pc[t].b in s.list
  {
    ReachableInv(s);
    if t in s.pc {
      assert LocalOk(s, t, s.pc[t]);
    }
  }

  /** get_free dereferences a null cursor exactly when the list is empty and not shut down. */
  lemma FaultsExactlyWhenEmpty(s: State, t: Tid)
    requires Reachable(s) && Enabled(s, Run(t)) && s.pc[t].GetCheck?
    ensures Exec(s, t).pc[t].GetFault? <==> s.list == [] && !s.shutdown
  {
    ReachableInv(s);
  }

  ghost predicate NoFault(s: State) {
    forall t :: t in s.pc ==> !s.pc[t].GetFault?
  }

  /** Only following a null cursor faults, and only clear empties the list. */
  lemma NoFaultStep(s: State, s': State, e: Event)
    requires Cursor(s) && Effect(s, s', e) && NoFault(s) && (s.list != [] || s.shutdown)
    requires s.pc[e.tid].ClearDelete? ==> s.shutdown
    ensures NoFault(s') && (s'.list != [] || s'.shutdown)
  {
    forall u | u in s'.pc ensures !s'.pc[u].GetFault? {
      assert s'.pc[u] == s.pc[u] || u == e.tid || s'.pc[u] == Woken(s.pc[u]);
    }
  }

  /** Once a buffer was appended no get_free ever faults, whatever the interleaving. */
  lemma {:induction false} NeverFaultsAfterAppend(s: State, es: seq<Event>)
    requires Inv(s) && Valid(s, es) && NoFault(s) && (s.list != [] || s.shutdown)
    ensures NoFault(Outcome(s, es))
    decreases |es|
  {
    if es != [] {
      var e, s' := es[0], Apply(s, es[0]);
      StepKeeps(s, e);
      EventEffect(s, s', e);
      NoFaultStep(s, s', e);
      NeverFaultsAfterAppend(s', es[1..]);
    }
  }

  // The lock.

  /** The lock is owned by a thread that is outside every critical section and will not release it. */
  ghost predicate Abandoned(s: State) {
    s.lock.Some? && s.lock.value in s.pc && !Critical(s.pc[s.lock.value])
  }

  /** Before shutdown the owner of the lock is always about to release it. */
  lemma LockBalanced(s: State)
    requires Reachable(s) && !s.shutdown
    ensures !Abandoned(s)
  {
    ReachableInv(s);
  }

  /** The only event that abandons the lock is the return on line 251: a relock that finds the shutdown flag set. */
  lemma AbandonedExactlyOnLine251(s: State, e: Event)
    requires Reachable(s) && Enabled(s, e) && !Abandoned(s)
    ensures Abandoned(Apply(s, e)) <==> e.Run? && s.pc[e.tid].GetRecheck? && s.shutdown
  {
    ReachableInv(s);
    AbandonStep(s, e);
  }

  lemma AbandonStep(s: State, e: Event)
    requires Locks(s) && Enabled(s, e) && !Abandoned(s)
    ensures Abandoned(Apply(s, e)) <==> e.Run? && s.pc[e.tid].GetRecheck? && s.shutdown
  {
    if e.Run? && Critical(s.pc[e.tid]) {
      CriticalStep(s, e.tid);
    } else {
      OutsideStep(s, e);
    }
  }

  /** A statement of the owner keeps it critical, releases the lock, or is the return on line 251. */
  lemma CriticalStep(s: State, t: Tid)
    requires Enabled(s, Run(t)) && Critical(s.pc[t]) && s.lock == Some(t)
    ensures Abandoned(Exec(s, t)) <==> s.pc[t].GetRecheck? && s.shutdown
  {
  }

  lemma OutsideStep(s: State, e: Event)
    requires Locks(s) && Enabled(s, e) && !Abandoned(s) && !Critical(s.pc[e.tid])
    ensures !Abandoned(Apply(s, e))
  {
  }

  lemma AbandonedStep(s: State, s': State, e: Event)
    requires Locks(s) && Enabled(s, e) && Effect(s, s', e) && Abandoned(s)
    ensures Abandoned(s') && s'.list == s.list && s'.destroyed == s.destroyed
    ensures !s.phase.Finished? ==> !s'.phase.Finished?
  {
    WokenStays(s.pc[s.lock.value]);
  }

  /** An abandoned lock stays taken in every run: the list is frozen and a running clear never finishes. */
  lemma {:induction false} AbandonedForever(s: State, es: seq<Event>)
    requires Inv(s) && Valid(s, es) && Abandoned(s)
    ensures Abandoned(Outcome(s, es)) && Outcome(s, es).list == s.list && Outcome(s, es).destroyed == s.destroyed
    ensures !s.phase.Finished? ==> !Outcome(s, es).phase.Finished?
    decreases |es|
  {
    if es != [] {
      var e, s' := es[0], Apply(s, es[0]);
      StepKeeps(s, e);
      EventEffect(s, s', e);
      AbandonedStep(s, s', e);
      AbandonedForever(s', es[1..]);
    }
  }

  /** Unless the lock is abandoned or a thread has faulted, no reachable state is stuck. */
  lemma NoStall(s: State, t: Tid)
    requires Reachable(s) && !Abandoned(s) && NoFault(s) && t in s.pc && !s.pc[t].Idle?
    ensures Enabled(s, Run(t)) || Enabled(s, Timeout(t)) || (s.lock.Some? && Enabled(s, Run(s.lock.value)))
  {
    ReachableInv(s);
    OwnerCanRun(s, t);
  }

  lemma OwnerCanRun(s: State, t: Tid)
    requires Locks(s) && !Abandoned(s) && NoFault(s) && t in s.pc && !s.pc[t].Idle?
    ensures Enabled(s, Run(t)) || Enabled(s, Timeout(t)) || (s.lock.Some? && Enabled(s, Run(s.lock.value)))
  {
  }
}
