/** What single events of the buffer list protocol change, whatever the state. */
module ProtocolEffects {
  import opened Common
  import opened Circular
  import opened Protocol

  /** Statements that move their thread, may touch the lock, and change nothing else. */
  predicate Plain(p: Pc) {
    || NeedsLock(p) || p.AppendUnlock? || p.GetUnlock? || p.SetUnlock? || p.GetCheck? || p.GetRecheck?
    || p.GetTest? || p.GetCond? || p.ClearTest? || p.ClearCond?
  }

  /** The statements on bits and cursor. */
  predicate OnBits(p: Pc) {
    p.GetReserve? || p.GetMark? || p.GetAdvance? || p.SetClear? || p.SetAvail?
  }

  /** Threads and lock: only thread t moves, unless it wakes the sleepers. */
  ghost predicate ThreadEffect(s: State, s': State, t: Tid, run: bool)
    requires t in s.pc
  {
    var p := s.pc[t];
    && s'.pc.Keys == s.pc.Keys && s'.held.Keys == s.held.Keys
    && (forall u :: u in s.pc && u != t ==> s'.pc[u] == s.pc[u] || (run && p.SetWake? && s'.pc[u] == Woken(s.pc[u])))
    && (forall u :: u in s.held && (u != t || !(run && (p.GetReserve? || p.SetAvail?))) ==> s'.held[u] == s.held[u])
    && (Critical(s'.pc[t]) ==> run && (NeedsLock(p) || Critical(p)))
    && (s'.pc[t].GetFault? ==> run && (p.GetCheck? || p.GetRecheck?) && s.next.None? && !s.shutdown)
    && (s'.pc[t].GetMark? || s'.pc[t].GetAdvance? ==> run && (p.GetReserve? || p.GetMark? || p.GetAdvance?))
    && (run && p.GetMark? ==> (s'.pc[t].GetMark? || s'.pc[t].GetAdvance?) && s'.lock == s.lock)
    && (s'.lock == s.lock || (run && NeedsLock(p) && s'.lock == Some(t)) || (run && Critical(p) && s'.lock.None?))
  }

  /** List, flag, phase and log: each changes in a few statements only. */
  ghost predicate DataEffect(s: State, s': State, t: Tid, run: bool)
    requires t in s.pc
  {
    var p := s.pc[t];
    && s'.shutdown == (s.shutdown || (run && p.ClearFlag?))
    && (s'.phase == s.phase || (!run && s.phase.NotCalled? && s'.phase == Called(t)) || (run && p.ClearUnlock?))
    && (s'.log == s.log || (run && p.GetReserve? && s'.log == s.log + [Reservation(t, p.b)]))
    && (s'.behind == s.behind || (run && p.AppendLink? && s'.behind == s.behind + {p.b}))
    && (s'.next == s.next || (run && (p.AppendLink? || p.GetAdvance?)))
    && (s'.released == s.released || (run && p.SetAvail?))
    && (s'.flags == s.flags || (run && OnBits(p)) || (!run && p.Idle?))
    && (forall b :: b in s.flags && !(run && (p.GetReserve? || p.SetAvail?)) ==>
          b in s'.flags && s'.flags[b].available == s.flags[b].available)
    && s'.list == (if run && p.AppendLink? then s.list + [p.b]
                   else if run && p.ClearDelete? && p.b in s.list then Without(s.list, p.b) else s.list)
    && s'.destroyed == (if run && p.ClearDelete? && p.code.Positive? then s.destroyed + {p.b} else s.destroyed)
    && s'.leaked == (if run && p.ClearDelete? && !p.code.Positive? then s.leaked + {p.b} else s.leaked)
  }

  ghost predicate Effect(s: State, s': State, e: Event) {
    e.tid in s.pc && ThreadEffect(s, s', e.tid, e.Run?) && DataEffect(s, s', e.tid, e.Run?)
  }

  lemma PlainIsMove(s: State, s': State, t: Tid)
    requires Enabled(s, Run(t)) && Plain(s.pc[t]) && s' == Exec(s, t)
    ensures t in s'.pc && s' == s.(pc := s.pc[t := s'.pc[t]], lock := s'.lock)
  {
    if NeedsLock(s.pc[t]) {
      LockIsMove(s, s', t);
    }
  }

  lemma LockIsMove(s: State, s': State, t: Tid)
    requires Enabled(s, Run(t)) && NeedsLock(s.pc[t]) && s' == Exec(s, t)
    ensures t in s'.pc && s' == s.(pc := s.pc[t := s'.pc[t]], lock := Some(t))
  {
  }

  lemma PlainEffect(s: State, s': State, t: Tid)
    requires Enabled(s, Run(t)) && Plain(s.pc[t]) && s' == Exec(s, t)
    ensures ThreadEffect(s, s', t, true) && DataEffect(s, s', t, true)
  {
    PlainIsMove(s, s', t);
    PlainGoes(s, s', t);
    PlainFrame(s, s', t);
  }

  /** Where plain statements go. */
  lemma PlainGoes(s: State, s': State, t: Tid)
    requires Enabled(s, Run(t)) && Plain(s.pc[t]) && s' == Exec(s, t) && t in s'.pc
    ensures var p, p' := s.pc[t], s'.pc[t];
            && (Critical(p') ==> NeedsLock(p) || Critical(p)) && !p'.GetMark? && !p'.GetAdvance? && !p'.GetUnlock?
            && (p'.GetFault? ==> (p.GetCheck? || p.GetRecheck?) && s.next.None? && !s.shutdown)
            && (s'.lock == s.lock || (NeedsLock(p) && s'.lock == Some(t)) || (Critical(p) && s'.lock.None?))
  {
  }

  lemma PlainFrame(s: State, s': State, t: Tid)
    requires t in s.pc && t in s'.pc && Plain(s.pc[t]) && s' == s.(pc := s.pc[t := s'.pc[t]], lock := s'.lock)
    ensures DataEffect(s, s', t, true)
  {
  }

  lemma BitsShape(s: State, s': State, t: Tid)
    requires Enabled(s, Run(t)) && OnBits(s.pc[t]) && s' == Exec(s, t)
    ensures t in s'.pc && s'.pc == s.pc[t := s'.pc[t]] && s'.held.Keys == s.held.Keys
    ensures s' == s.(pc := s'.pc, flags := s'.flags, next := s'.next, held := s'.held, log := s'.log, released := s'.released)
    ensures forall u :: u in s.held && (u != t || !(s.pc[t].GetReserve? || s.pc[t].SetAvail?)) ==> s'.held[u] == s.held[u]
  {
    match s.pc[t]
    case GetReserve(b, _) => assert s' == s || s' == Reserve(s, t, b);
    case GetMark(b) => assert s' == s || s' == Mark(s, t, b);
    case GetAdvance(b) => assert s' == Advance(s, t, b);
    case SetClear(b) => assert s' == s || s' == Unmark(s, t, b);
    case SetAvail(b) => assert s' == s || s' == MakeAvailable(s, t, b);
  }

  lemma BitsGo(s: State, s': State, t: Tid)
    requires Enabled(s, Run(t)) && OnBits(s.pc[t]) && s' == Exec(s, t) && t in s'.pc
    ensures var p, p' := s.pc[t], s'.pc[t];
            && Critical(p') && !p'.GetFault? && (s'.log == s.log || (p.GetReserve? && s'.log == s.log + [Reservation(t, p.b)]))
            && (s'.next == s.next || p.GetAdvance?) && (s'.released == s.released || p.SetAvail?)
            && (p'.GetMark? || p'.GetAdvance? ==> p.GetReserve? || p.GetMark? || p.GetAdvance?)
            && (p.GetMark? ==> p'.GetMark? || p'.GetAdvance?)
  {
  }

  lemma BitsAvailable(s: State, s': State, t: Tid, b: Buf)
    requires Enabled(s, Run(t)) && OnBits(s.pc[t]) && s' == Exec(s, t) && b in s.flags
    ensures b in s'.flags && (s'.flags[b].available == s.flags[b].available || s.pc[t].GetReserve? || s.pc[t].SetAvail?)
  {
  }

  lemma BitsEffect(s: State, s': State, t: Tid)
    requires Enabled(s, Run(t)) && OnBits(s.pc[t]) && s' == Exec(s, t)
    ensures ThreadEffect(s, s', t, true) && DataEffect(s, s', t, true)
  {
    BitsShape(s, s', t);
    BitsGo(s, s', t);
    forall b | b in s.flags
      ensures b in s'.flags && (s'.flags[b].available == s.flags[b].available || s.pc[t].GetReserve? || s.pc[t].SetAvail?)
    {
      BitsAvailable(s, s', t, b);
    }
  }

  lemma LinkEffect(s: State, s': State, t: Tid)
    requires Enabled(s, Run(t)) && s.pc[t].AppendLink? && s' == Link(s, t, s.pc[t].b)
    ensures ThreadEffect(s, s', t, true) && DataEffect(s, s', t, true)
  {
  }

  lemma WakeEffect(s: State, s': State, t: Tid)
    requires Enabled(s, Run(t)) && s.pc[t].SetWake? && s' == Goto(WakeAll(s), t, Idle(Void))
    ensures ThreadEffect(s, s', t, true) && DataEffect(s, s', t, true)
  {
  }

  lemma ClearEffect(s: State, s': State, t: Tid)
    requires Enabled(s, Run(t)) && (s.pc[t].ClearFlag? || s.pc[t].ClearDelete? || s.pc[t].ClearUnlock?) && s' == Exec(s, t)
    ensures ThreadEffect(s, s', t, true) && DataEffect(s, s', t, true)
  {
    match s.pc[t]
    case ClearFlag =>
    case ClearDelete(_, _, _) =>
    case ClearUnlock =>
  }

  lemma OtherEffect(s: State, s': State, t: Tid)
    requires Enabled(s, Run(t)) && !Plain(s.pc[t]) && s' == Exec(s, t)
    ensures ThreadEffect(s, s', t, true) && DataEffect(s, s', t, true)
  {
    var p := s.pc[t];
    if OnBits(p) {
      BitsEffect(s, s', t);
    } else if p.AppendLink? {
      LinkEffect(s, s', t);
    } else if p.SetWake? {
      WakeEffect(s, s', t);
    } else {
      ClearEffect(s, s', t);
    }
  }

  lemma CallEffect(s: State, s': State, e: Event)
    requires Enabled(s, e) && (e.CallAppend? || e.CallGet? || e.CallSet? || e.CallClear?) && s' == Apply(s, e)
    ensures Effect(s, s', e)
  {
    if e.CallGet? || e.CallSet? {
      MoveEffect(s, s', e.tid, s'.pc[e.tid]);
    }
  }

  lemma SleepEffect(s: State, s': State, e: Event)
    requires Enabled(s, e) && (e.Timeout? || e.Interrupt?) && s' == Apply(s, e)
    ensures Effect(s, s', e)
  {
    WakesUp(s, s', e);
    MoveEffect(s, s', e.tid, s'.pc[e.tid]);
  }

  lemma WakesUp(s: State, s': State, e: Event)
    requires Enabled(s, e) && (e.Timeout? || e.Interrupt?) && s' == Apply(s, e)
    ensures e.tid in s'.pc && s' == Goto(s, e.tid, s'.pc[e.tid])
    ensures var p := s'.pc[e.tid]; p.Idle? || p.GetRelock? || p.ClearRelock?
  {
  }

  /** Going from outside a critical section to outside one, without running a statement. */
  lemma MoveEffect(s: State, s': State, t: Tid, p: Pc)
    requires t in s.pc && s' == Goto(s, t, p) && !Critical(p)
    ensures ThreadEffect(s, s', t, false) && DataEffect(s, s', t, false)
  {
  }

  lemma EventEffect(s: State, s': State, e: Event)
    requires Enabled(s, e) && s' == Apply(s, e)
    ensures Effect(s, s', e)
  {
    if e.Run? {
      if Plain(s.pc[e.tid]) {
        PlainEffect(s, s', e.tid);
      } else {
        OtherEffect(s, s', e.tid);
      }
    } else if e.Timeout? || e.Interrupt? {
      SleepEffect(s, s', e);
    } else {
      CallEffect(s, s', e);
    }
  }
}
