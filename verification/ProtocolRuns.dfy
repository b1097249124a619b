/** The invariant over whole interleavings. */
module ProtocolRuns {
  import opened Common
  import opened Protocol
  import opened ProtocolInvariant
  import opened ProtocolSteps
  import opened ProtocolEffects

  // Statements that move their thread and change nothing else but the lock.

  /** Where a statement sends its thread. */
  ghost predicate Moves(s: State, s': State, t: Tid) {
    t in s'.pc && s' == Move(s, t, s'.pc[t], s'.lock) && MayMove(s, t, s'.pc[t], s'.lock)
  }

  lemma LockMoves(s: State, s': State, t: Tid)
    requires Knows(s, t) && Enabled(s, Run(t)) && NeedsLock(s.pc[t]) && s' == Exec(s, t)
    ensures Moves(s, s', t)
  {
    match s.pc[t]
    case AppendLock(b) => AcquireMoves(s, s', t, AppendLink(b));
    case GetLock(c) => AcquireMoves(s, s', t, GetCheck(c));
    case GetRelock(b, c) => AcquireMoves(s, s', t, GetRecheck(b, c));
    case SetLock(b) => AcquireMoves(s, s', t, SetClear(b));
    case ClearLock => AcquireMoves(s, s', t, ClearFlag);
    case ClearRelock(b, tpos, code) => AcquireMoves(s, s', t, ClearTest(b, tpos, code));
  }

  /** p is the statement after the spin_lock at q. */
  predicate AfterLock(q: Pc, p: Pc) {
    match q
    case AppendLock(b) => p == AppendLink(b)
    case GetLock(c) => p == GetCheck(c)
    case GetRelock(b, c) => p == GetRecheck(b, c)
    case SetLock(b) => p == SetClear(b)
    case ClearLock => p == ClearFlag
    case ClearRelock(b, tpos, code) => p == ClearTest(b, tpos, code)
    case _ => false
  }

  lemma AcquireMoves(s: State, s': State, t: Tid, p: Pc)
    requires Knows(s, t) && s.lock.None? && AfterLock(s.pc[t], p) && s' == Acquire(s, t, p)
    ensures Moves(s, s', t)
  {
  }

  lemma UnlockMoves(s: State, s': State, t: Tid)
    requires Knows(s, t) && Enabled(s, Run(t)) && s' == Exec(s, t)
    requires s.pc[t].AppendUnlock? || s.pc[t].GetUnlock? || s.pc[t].SetUnlock?
    ensures Moves(s, s', t)
  {
    match s.pc[t]
    case AppendUnlock => ReleaseMoves(s, s', t, Idle(Void));
    case GetUnlock(b) => ReleaseMoves(s, s', t, Idle(Got(b)));
    case SetUnlock(b) => ReleaseMoves(s, s', t, SetWake(b));
  }

  lemma ReleaseMoves(s: State, s': State, t: Tid, p: Pc)
    requires Knows(s, t) && (p.Idle? || p.SetWake?) && s' == Release(s, t, p)
    requires s.pc[t].AppendUnlock? || s.pc[t].GetUnlock? || s.pc[t].SetUnlock? || s.pc[t].GetCheck?
    requires s.pc[t].SetUnlock? ==> p == SetWake(s.pc[t].b)
    ensures Moves(s, s', t)
  {
  }

  /** Following the cursor faults only on an empty list; line 251 keeps the lock. */
  lemma CheckMoves(s: State, s': State, t: Tid)
    requires Knows(s, t) && Enabled(s, Run(t)) && (s.pc[t].GetCheck? || s.pc[t].GetRecheck?) && s' == Exec(s, t)
    ensures Moves(s, s', t)
  {
    if !s.shutdown {
      FetchMoves(s, s', t, s.pc[t].GetRecheck?);
    } else if s.pc[t].GetCheck? {
      ReleaseMoves(s, s', t, Idle(NoMemory));
    }
  }

  lemma FetchMoves(s: State, s': State, t: Tid, again: bool)
    requires Knows(s, t) && !s.shutdown && (if again then s.pc[t].GetRecheck? else s.pc[t].GetCheck?)
    requires s' == Goto(s, t, Fetch(s, s.pc[t].c, again))
    ensures Moves(s, s', t)
  {
  }

  /** Going round again after a wait implies a reservation by another thread since the lock was dropped. */
  lemma TestMoves(s: State, s': State, t: Tid)
    requires Knows(s, t) && Enabled(s, Run(t)) && s.pc[t].GetTest? && s' == Exec(s, t)
    ensures Moves(s, s', t)
  {
  }

  lemma CondMoves(s: State, s': State, t: Tid)
    requires Knows(s, t) && Enabled(s, Run(t)) && s.pc[t].GetCond? && s' == Exec(s, t)
    ensures Moves(s, s', t)
  {
  }

  lemma ClearMoves(s: State, s': State, t: Tid)
    requires Knows(s, t) && Enabled(s, Run(t)) && (s.pc[t].ClearTest? || s.pc[t].ClearCond?) && s' == Exec(s, t)
    ensures Moves(s, s', t)
  {
    if s.pc[t].ClearTest? {
      assert s'.pc[t].ClearDelete? || s'.pc[t].ClearCond?;
    } else {
      assert s'.pc[t].ClearRelock? || s'.pc[t].ClearAsleep?;
    }
  }

  lemma SleepMoves(s: State, s': State, t: Tid, code: Code)
    requires Knows(s, t) && Asleep(s.pc[t]) && !code.Positive? && s' == Abandon(s, t, code)
    ensures Moves(s, s', t)
  {
    if s.pc[t].GetAsleep? {
      DozerMoves(s, s', t, code);
    }
  }

  lemma DozerMoves(s: State, s': State, t: Tid, code: Code)
    requires Knows(s, t) && s.pc[t].GetAsleep? && !code.Positive? && s' == Abandon(s, t, code)
    ensures Moves(s, s', t)
  {
    assert s'.pc[t].Idle? || s'.pc[t] == GetRelock(s.pc[t].b, s.pc[t].c);
  }

  lemma CallMoves(s: State, s': State, t: Tid, e: Event)
    requires Knows(s, t) && (e.CallGet? || e.CallSet?) && e.tid == t && Enabled(s, e) && s' == Apply(s, e)
    ensures Moves(s, s', t)
  {
  }

  lemma PlainMoves(s: State, s': State, t: Tid)
    requires Knows(s, t) && Enabled(s, Run(t)) && Plain(s.pc[t]) && s' == Exec(s, t)
    ensures Moves(s, s', t)
  {
    var p := s.pc[t];
    if NeedsLock(p) {
      LockMoves(s, s', t);
    } else if p.AppendUnlock? || p.GetUnlock? || p.SetUnlock? {
      UnlockMoves(s, s', t);
    } else if p.GetCheck? || p.GetRecheck? {
      CheckMoves(s, s', t);
    } else if p.GetTest? {
      TestMoves(s, s', t);
    } else if p.GetCond? {
      CondMoves(s, s', t);
    } else {
      ClearMoves(s, s', t);
    }
  }

  lemma MovesKeep(s: State, s': State, t: Tid)
    requires Inv(s) && Moves(s, s', t)
    ensures Inv(s')
  {
    MoveKeeps(s, s', t, s'.pc[t], s'.lock);
  }

  // Statements that change data.

  lemma LinkKeeps(s: State, t: Tid)
    requires Inv(s) && Enabled(s, Run(t)) && s.pc[t].AppendLink?
    ensures Inv(Exec(s, t))
  {
    LinkData(s, Exec(s, t), t, s.pc[t].b);
    LinkThreads(s, Exec(s, t), t, s.pc[t].b);
  }

  lemma ReserveKeeps(s: State, t: Tid)
    requires Inv(s) && Enabled(s, Run(t)) && s.pc[t].GetReserve?
    ensures Inv(Exec(s, t))
  {
    assert LocalOk(s, t, s.pc[t]);
    ReserveData(s, Exec(s, t), t, s.pc[t].b, s.pc[t].c);
    ReserveThreads(s, Exec(s, t), t, s.pc[t].b, s.pc[t].c);
  }

  lemma MarkKeeps(s: State, t: Tid)
    requires Inv(s) && Enabled(s, Run(t)) && s.pc[t].GetMark?
    ensures Inv(Exec(s, t))
  {
    assert LocalOk(s, t, s.pc[t]);
    MarkData(s, Exec(s, t), t, s.pc[t].b);
    MarkThreads(s, Exec(s, t), t, s.pc[t].b);
  }

  lemma AdvanceKeeps(s: State, t: Tid)
    requires Inv(s) && Enabled(s, Run(t)) && s.pc[t].GetAdvance?
    ensures Inv(Exec(s, t))
  {
    assert LocalOk(s, t, s.pc[t]);
    AdvanceData(s, Exec(s, t), t, s.pc[t].b);
    AdvanceThreads(s, Exec(s, t), t, s.pc[t].b);
  }

  lemma UnmarkKeeps(s: State, t: Tid)
    requires Inv(s) && Enabled(s, Run(t)) && s.pc[t].SetClear?
    ensures Inv(Exec(s, t))
  {
    assert LocalOk(s, t, s.pc[t]);
    UnmarkData(s, Exec(s, t), t, s.pc[t].b);
    UnmarkThreads(s, Exec(s, t), t, s.pc[t].b);
  }

  lemma AvailKeeps(s: State, t: Tid)
    requires Inv(s) && Enabled(s, Run(t)) && s.pc[t].SetAvail?
    ensures Inv(Exec(s, t))
  {
    assert LocalOk(s, t, s.pc[t]);
    AvailData(s, Exec(s, t), t, s.pc[t].b);
    AvailThreads(s, Exec(s, t), t, s.pc[t].b);
  }

  lemma FlagKeeps(s: State, t: Tid)
    requires Inv(s) && Enabled(s, Run(t)) && s.pc[t].ClearFlag?
    ensures Inv(Exec(s, t))
  {
    ShutKeeps(s, Exec(s, t), t);
  }

  lemma UnlinkKeeps(s: State, t: Tid)
    requires Inv(s) && Enabled(s, Run(t)) && s.pc[t].ClearDelete?
    ensures Inv(Exec(s, t))
  {
    var p := s.pc[t];
    DeleteKeeps(s, Exec(s, t), t, p.b, p.tpos, p.code);
  }

  lemma FinishKeeps(s: State, t: Tid)
    requires Inv(s) && Enabled(s, Run(t)) && s.pc[t].ClearUnlock?
    ensures Inv(Exec(s, t))
  {
    PhaseKeeps(s, Exec(s, t), t, Idle(Void), None, Finished);
  }

  // All events.

  lemma DataKeeps(s: State, t: Tid)
    requires Inv(s) && Enabled(s, Run(t)) && !Plain(s.pc[t])
    ensures Inv(Exec(s, t))
  {
    match s.pc[t]
    case AppendLink(_) => LinkKeeps(s, t);
    case GetReserve(_, _) => ReserveKeeps(s, t);
    case GetMark(_) => MarkKeeps(s, t);
    case GetAdvance(_) => AdvanceKeeps(s, t);
    case SetClear(_) => UnmarkKeeps(s, t);
    case SetAvail(_) => AvailKeeps(s, t);
    case SetWake(b) => WakeKeeps(s, t, b);
    case ClearFlag => FlagKeeps(s, t);
    case ClearDelete(_, _, _) => UnlinkKeeps(s, t);
    case ClearUnlock => FinishKeeps(s, t);
  }

  lemma ExecKeeps(s: State, s': State, t: Tid)
    requires Inv(s) && Enabled(s, Run(t)) && s' == Exec(s, t)
    ensures Inv(s')
  {
    if Plain(s.pc[t]) {
      Knowledge(s, t);
      PlainMoves(s, s', t);
      MovesKeep(s, s', t);
    } else {
      DataKeeps(s, t);
    }
  }

  lemma CallKeeps(s: State, s': State, t: Tid, e: Event)
    requires Inv(s) && (e.CallGet? || e.CallSet?) && e.tid == t && Enabled(s, e) && s' == Apply(s, e)
    ensures Inv(s')
  {
    Knowledge(s, t);
    CallMoves(s, s', t, e);
    MovesKeep(s, s', t);
  }

  lemma SleepKeeps(s: State, s': State, t: Tid, code: Code)
    requires Inv(s) && t in s.pc && Asleep(s.pc[t]) && !code.Positive? && s' == Abandon(s, t, code)
    ensures Inv(s')
  {
    Knowledge(s, t);
    SleepMoves(s, s', t, code);
    MovesKeep(s, s', t);
  }

  /** Every event keeps the invariant. */
  lemma StepKeeps(s: State, e: Event)
    requires Inv(s) && Enabled(s, e)
    ensures Inv(Apply(s, e))
  {
    match e
    case CallAppend(t, b) => CreateKeeps(s, Apply(s, e), t, b);
    case CallGet(t) => CallKeeps(s, Apply(s, e), t, e);
    case CallSet(t, b) => CallKeeps(s, Apply(s, e), t, e);
    case CallClear(t) => PhaseKeeps(s, Apply(s, e), t, ClearLock, s.lock, Called(t));
    case Run(t) => ExecKeeps(s, Apply(s, e), t);
    case Timeout(t) => SleepKeeps(s, Apply(s, e), t, Zero);
    case Interrupt(t) => SleepKeeps(s, Apply(s, e), t, Negative);
  }

  /** Every interleaving keeps the invariant. */
  lemma {:induction false} RunKeeps(s: State, es: seq<Event>)
    requires Inv(s) && Valid(s, es)
    ensures Inv(Outcome(s, es))
    decreases |es|
  {
    if es != [] {
      StepKeeps(s, es[0]);
      RunKeeps(Apply(s, es[0]), es[1..]);
    }
  }

  lemma ReachableInv(s: State)
    requires Reachable(s)
    ensures Inv(s)
  {
    var threads, es :| Valid(Init(threads), es) && Outcome(Init(threads), es) == s;
    InitInv(threads);
    RunKeeps(Init(threads), es);
  }
}
