/** What the calls on the buffer list answer, and when. */
module ProtocolAnswers {
  import opened Common
  import opened Protocol
  import opened ProtocolInvariant
  import opened ProtocolSteps
  import opened ProtocolEffects
  import opened ProtocolRuns

  // The statement that returns decides the answer.

  /**
   * The exact codes of get_free: -ENOMEM if and only if the first check finds
   * the flag, -EBUSY if and only if the wait times out on a buffer that is not
   * available, -EINTR if and only if the check after a wait finds the flag or
   * the wait has a negative result, and a buffer if and only if the last
   * statement of a reservation runs.
   */
  lemma AnswersExactly(s: State, e: Event)
    requires Enabled(s, e) && !s.pc[e.tid].Idle?
    ensures e.tid in Apply(s, e).pc
    ensures var p, p' := s.pc[e.tid], Apply(s, e).pc[e.tid];
            && (p' == Idle(NoMemory) <==> e.Run? && p.GetCheck? && s.shutdown)
            && (p' == Idle(Busy) <==> e.Timeout? && p.GetAsleep? && !Available(s, p.b))
            && (p' == Idle(Interrupted) <==> (e.Run? && p.GetRecheck? && s.shutdown) || (e.Interrupt? && p.GetAsleep?))
            && (forall b :: p' == Idle(Got(b)) <==> e.Run? && p.GetUnlock? && p.b == b)
  {
    var s' := Apply(s, e);
    EventEffect(s, s', e);
    if e.Run? {
      RunAnswers(s, s', e.tid);
    }
  }

  /** What a statement may return. */
  ghost predicate Answers(s: State, s': State, t: Tid)
    requires t in s.pc && t in s'.pc
  {
    var p, p' := s.pc[t], s'.pc[t];
    && (p' == Idle(NoMemory) <==> p.GetCheck? && s.shutdown) && p' != Idle(Busy)
    && (p' == Idle(Interrupted) <==> p.GetRecheck? && s.shutdown)
    && (forall b :: p' == Idle(Got(b)) <==> p.GetUnlock? && p.b == b)
  }

  lemma RunAnswers(s: State, s': State, t: Tid)
    requires Enabled(s, Run(t)) && s' == Exec(s, t) && t in s'.pc
    ensures Answers(s, s', t)
  {
    var p := s.pc[t];
    if OnBits(p) {
      BitsGo(s, s', t);
    } else if Plain(p) {
      PlainAnswers(s, s', t);
    } else {
      OtherAnswers(s, s', t);
    }
  }

  lemma PlainAnswers(s: State, s': State, t: Tid)
    requires Enabled(s, Run(t)) && Plain(s.pc[t]) && s' == Exec(s, t) && t in s'.pc
    ensures Answers(s, s', t)
  {
    if NeedsLock(s.pc[t]) {
      LockIsCritical(s, s', t);
    } else {
      match s.pc[t]
      case GetCheck(_) =>
      case GetRecheck(_, _) =>
      case GetUnlock(_) =>
      case _ =>
    }
  }

  lemma LockIsCritical(s: State, s': State, t: Tid)
    requires Enabled(s, Run(t)) && NeedsLock(s.pc[t]) && s' == Exec(s, t) && t in s'.pc
    ensures Critical(s'.pc[t])
  {
  }

  lemma OtherAnswers(s: State, s': State, t: Tid)
    requires Enabled(s, Run(t)) && !Plain(s.pc[t]) && !OnBits(s.pc[t]) && s' == Exec(s, t) && t in s'.pc
    ensures Answers(s, s', t)
  {
    match s.pc[t]
    case AppendLink(_) =>
    case SetWake(_) =>
    case ClearFlag =>
    case ClearDelete(_, _, _) =>
    case ClearUnlock =>
  }

  /** Whatever a thread does, the others stay where they are, except that its wake-up sends sleepers to their condition. */
  lemma OthersStay(s: State, e: Event, u: Tid)
    requires Enabled(s, e) && u in s.pc && u != e.tid
    ensures u in Apply(s, e).pc
    ensures var p, p' := s.pc[u], Apply(s, e).pc[u];
            || p' == p
            || (e.Run? && s.pc[e.tid].SetWake? && p.GetAsleep? && p' == GetCond(p.b, p.c))
            || (e.Run? && s.pc[e.tid].SetWake? && p.ClearAsleep? && p' == ClearCond(p.b, p.tpos))
  {
    EventEffect(s, Apply(s, e), e);
  }

  // A buffer is answered only to the thread that reserved it, in the same call.

  /** A reservation of b by t is logged at position n or later. */
  ghost predicate Made(s: State, t: Tid, b: Buf, n: nat) {
    exists k :: n <= k < |s.log| && s.log[k] == Reservation(t, b)
  }

  predicate Reserved(p: Pc) {
    p.GetMark? || p.GetAdvance? || p.GetUnlock?
  }

  /** Where thread t stands in a call of get_free that began with n reservations logged. */
  ghost predicate During(s: State, t: Tid, n: nat) {
    && n <= |s.log| && t in s.pc && t in s.held
    && (Reserved(s.pc[t]) ==> Made(s, t, s.pc[t].b, n))
    && (s.pc[t].Idle? && s.pc[t].ret.Got? ==> Made(s, t, s.pc[t].ret.buffer, n) && s.pc[t].ret.buffer in s.held[t])
  }

  /** Only a reservation leads to the statements that answer a buffer, and they keep it. */
  lemma ReservedFrom(s: State, s': State, t: Tid)
    requires Enabled(s, Run(t)) && s' == Exec(s, t) && t in s'.pc && Reserved(s'.pc[t])
    ensures var p := s.pc[t]; (p.GetReserve? || Reserved(p)) && s'.pc[t].b == p.b
    ensures s.pc[t].GetReserve? ==> s'.log == s.log + [Reservation(t, s.pc[t].b)]
  {
    if OnBits(s.pc[t]) {
      match s.pc[t]
      case GetReserve(_, _) =>
      case GetMark(_) =>
      case GetAdvance(_) =>
      case SetClear(_) =>
      case SetAvail(_) =>
    } else if Plain(s.pc[t]) {
      PlainGoes(s, s', t);
    } else {
      NotReserved(s, s', t);
    }
  }

  lemma NotReserved(s: State, s': State, t: Tid)
    requires Enabled(s, Run(t)) && !Plain(s.pc[t]) && !OnBits(s.pc[t]) && s' == Exec(s, t) && t in s'.pc
    ensures !Reserved(s'.pc[t])
  {
    match s.pc[t]
    case AppendLink(_) =>
    case SetWake(_) =>
    case ClearFlag =>
    case ClearDelete(_, _, _) =>
    case ClearUnlock =>
  }

  lemma MadeStays(s: State, s': State, t: Tid, b: Buf, n: nat)
    requires Made(s, t, b, n) && (s'.log == s.log || exists r :: s'.log == s.log + [r])
    ensures Made(s', t, b, n)
  {
    var k :| n <= k < |s.log| && s.log[k] == Reservation(t, b);
    assert s'.log[k] == Reservation(t, b);
  }

  /** The event is the beginning of a call by thread t. */
  predicate CallOf(e: Event, t: Tid) {
    e.tid == t && (e.CallAppend? || e.CallGet? || e.CallSet? || e.CallClear?)
  }

  lemma DuringOther(s: State, s': State, e: Event, t: Tid, n: nat)
    requires Effect(s, s', e) && e.tid != t && During(s, t, n)
    ensures During(s', t, n)
  {
    assert s'.pc[t] == s.pc[t] || s'.pc[t] == Woken(s.pc[t]);
    if Reserved(s.pc[t]) {
      MadeStays(s, s', t, s.pc[t].b, n);
    } else if s.pc[t].Idle? && s.pc[t].ret.Got? {
      MadeStays(s, s', t, s.pc[t].ret.buffer, n);
    }
  }

  lemma DuringOwn(s: State, s': State, e: Event, t: Tid, n: nat)
    requires Effect(s, s', e) && Enabled(s, e) && s' == Apply(s, e) && e.tid == t && !CallOf(e, t)
    requires During(s, t, n) && LocalOk(s, t, s.pc[t])
    ensures During(s', t, n)
  {
    AnswersExactly(s, e);
    if Reserved(s'.pc[t]) {
      OnlyRunReserves(s, s', e);
      ReservedFrom(s, s', t);
      if s.pc[t].GetReserve? {
        assert s'.log[|s.log|] == Reservation(t, s.pc[t].b);
      } else {
        MadeStays(s, s', t, s.pc[t].b, n);
      }
    } else if s.pc[t].GetUnlock? && s'.pc[t].Idle? {
      MadeStays(s, s', t, s.pc[t].b, n);
    }
  }

  lemma OnlyRunReserves(s: State, s': State, e: Event)
    requires Enabled(s, e) && s' == Apply(s, e) && e.tid in s'.pc && Reserved(s'.pc[e.tid])
    ensures e.Run?
  {
  }

  lemma {:induction false} DuringRun(s: State, es: seq<Event>, t: Tid, n: nat)
    requires Inv(s) && Valid(s, es) && During(s, t, n) && forall i :: 0 <= i < |es| ==> !CallOf(es[i], t)
    ensures During(Outcome(s, es), t, n)
    decreases |es|
  {
    if es != [] {
      DuringStep(s, Apply(s, es[0]), es[0], t, n);
      DuringRun(Apply(s, es[0]), es[1..], t, n);
    }
  }

  lemma DuringStep(s: State, s': State, e: Event, t: Tid, n: nat)
    requires Inv(s) && Enabled(s, e) && s' == Apply(s, e) && During(s, t, n) && !CallOf(e, t)
    ensures Inv(s') && During(s', t, n)
  {
    StepKeeps(s, e);
    EventEffect(s, s', e);
    if e.tid == t {
      assert LocalOk(s, t, s.pc[t]);
      DuringOwn(s, s', e, t, n);
    } else {
      DuringOther(s, s', e, t, n);
    }
  }

  /**
   * If a call of get_free answers buffer b, then this thread reserved b during
   * the call and holds it.
   */
  lemma GotIsReserved(s: State, t: Tid, es: seq<Event>, b: Buf)
    requires Reachable(s) && Enabled(s, CallGet(t)) && Valid(Apply(s, CallGet(t)), es)
    requires forall i :: 0 <= i < |es| ==> !CallOf(es[i], t)
    requires var end := Outcome(Apply(s, CallGet(t)), es); t in end.pc && end.pc[t] == Idle(Got(b))
    ensures var end := Outcome(Apply(s, CallGet(t)), es);
            && t in end.held && b in end.held[t]
            && exists k :: |s.log| <= k < |end.log| && end.log[k] == Reservation(t, b)
  {
    ReachableInv(s);
    CallBegins(s, t);
    DuringRun(Apply(s, CallGet(t)), es, t, |s.log|);
  }

  lemma CallBegins(s: State, t: Tid)
    requires Inv(s) && Enabled(s, CallGet(t))
    ensures Inv(Apply(s, CallGet(t))) && During(Apply(s, CallGet(t)), t, |s.log|)
  {
    StepKeeps(s, CallGet(t));
    DuringBegins(s, t);
  }

  lemma DuringBegins(s: State, t: Tid)
    requires Enabled(s, CallGet(t))
    ensures During(Apply(s, CallGet(t)), t, |s.log|)
  {
  }

  /** The statement that answers a buffer runs before the flag is set, and its thread holds the buffer. */
  lemma GotBeforeShutdown(s: State, e: Event, b: Buf)
    requires Reachable(s) && Enabled(s, e) && !s.pc[e.tid].Idle?
    requires e.tid in Apply(s, e).pc && Apply(s, e).pc[e.tid] == Idle(Got(b))
    ensures !s.shutdown && e.tid in s.held && b in s.held[e.tid] && b in s.list && !Available(s, b)
  {
    ReachableInv(s);
    AnswersExactly(s, e);
    GotFacts(s, e.tid, b);
  }

  lemma GotFacts(s: State, t: Tid, b: Buf)
    requires Holding(s) && Locals(s) && t in s.pc && s.pc[t] == GetUnlock(b)
    ensures !s.shutdown && Holds(s, t, b) && b in s.list && !Available(s, b)
  {
    assert LocalOk(s, t, s.pc[t]);
  }

  // Shutdown.

  /** With the flag set nothing is reserved, and no thread comes to answer a buffer. */
  lemma ShutdownStep(s: State, s': State, e: Event)
    requires Inv(s) && Enabled(s, e) && s' == Apply(s, e) && Effect(s, s', e) && s.shutdown
    ensures s'.shutdown && s'.log == s.log
    ensures forall t, b :: t in s'.pc && s'.pc[t] == Idle(Got(b)) ==> s.pc[t] == Idle(Got(b))
  {
    assert LocalOk(s, e.tid, s.pc[e.tid]);
    if s.pc[e.tid].Idle? {
      CallLeavesIdle(s, s', e);
    } else {
      AnswersExactly(s, e);
    }
    ShutdownAnswers(s, s', e);
  }

  lemma CallLeavesIdle(s: State, s': State, e: Event)
    requires Enabled(s, e) && s.pc[e.tid].Idle? && s' == Apply(s, e)
    ensures e.tid in s'.pc && !s'.pc[e.tid].Idle?
  {
  }

  lemma ShutdownAnswers(s: State, s': State, e: Event)
    requires Effect(s, s', e) && LocalOk(s, e.tid, s.pc[e.tid]) && s.shutdown && e.tid in s'.pc
    requires forall b :: s'.pc[e.tid] == Idle(Got(b)) ==> s.pc[e.tid].GetUnlock?
    ensures s'.shutdown && s'.log == s.log
    ensures forall t, b :: t in s'.pc && s'.pc[t] == Idle(Got(b)) ==> s.pc[t] == Idle(Got(b))
  {
    forall t, b | t in s'.pc && s'.pc[t] == Idle(Got(b)) ensures s.pc[t] == Idle(Got(b)) {
      if t != e.tid {
        assert s'.pc[t] == s.pc[t] || s'.pc[t] == Woken(s.pc[t]);
      }
    }
  }

  lemma {:induction false} ShutdownRun(s: State, es: seq<Event>)
    requires Inv(s) && s.shutdown && Valid(s, es)
    ensures var end := Outcome(s, es);
            && end.shutdown && end.log == s.log && end.pc.Keys == s.pc.Keys
            && forall t, b :: t in end.pc && end.pc[t] == Idle(Got(b)) ==> s.pc[t] == Idle(Got(b))
    decreases |es|
  {
    if es != [] {
      var e, s' := es[0], Apply(s, es[0]);
      StepKeeps(s, e);
      EventEffect(s, s', e);
      ShutdownStep(s, s', e);
      ShutdownRun(s', es[1..]);
    }
  }

  /**
   * Once the shutdown flag is set no thread is about to succeed, no later
   * reservation is made, and no continuation ends a call of get_free with a
   * buffer: a thread whose last answer is one had it already.
   */
  lemma NoReservationAfterShutdown(s: State, es: seq<Event>, t: Tid)
    requires Reachable(s) && s.shutdown && Valid(s, es)
    ensures Outcome(s, es).shutdown && Outcome(s, es).log == s.log && Outcome(s, es).pc.Keys == s.pc.Keys
    ensures t in s.pc ==> !AtCursor(s.pc[t]) && !s.pc[t].GetUnlock?
    ensures t in s.pc && Outcome(s, es).pc[t].Idle? && Outcome(s, es).pc[t].ret.Got? ==> s.pc[t] == Outcome(s, es).pc[t]
  {
    ReachableInv(s);
    ShutdownRun(s, es);
    if t in s.pc {
      assert LocalOk(s, t, s.pc[t]);
    }
  }

  // The wait of clear.

  /**
   * The code a wait of clear leaves: positive if and only if the buffer was
   * available when it ended and it was not negative.
   */
  lemma WaitCode(s: State, e: Event)
    requires Enabled(s, e) && (s.pc[e.tid].ClearCond? || s.pc[e.tid].ClearAsleep?)
    ensures e.tid in Apply(s, e).pc
    ensures var p, p' := s.pc[e.tid], Apply(s, e).pc[e.tid];
            && (p'.ClearRelock? || (p'.ClearAsleep? && !Available(s, p.b)))
            && (p'.ClearRelock? ==> p'.b == p.b && p'.tpos == p.tpos)
            && (p'.ClearRelock? ==> (p'.code.Positive? <==> Available(s, p.b) && !e.Interrupt?))
  {
  }

  /** Nothing else touches the code between the wait and the deletion; a buffer that needed no wait has a positive one. */
  lemma CodeKept(s: State, t: Tid)
    requires Enabled(s, Run(t)) && (s.pc[t].ClearRelock? || s.pc[t].ClearTest? || s.pc[t].ClearFlag? || s.pc[t].ClearDelete?)
    ensures t in Exec(s, t).pc
    ensures var p, p' := s.pc[t], Exec(s, t).pc[t];
            && (p.ClearRelock? ==> p' == ClearTest(p.b, p.tpos, p.code))
            && (p.ClearTest? ==> p' == if Available(s, p.b) then ClearDelete(p.b, p.tpos, p.code) else ClearCond(p.b, p.tpos))
            && (p.ClearFlag? || p.ClearDelete? ==> p'.ClearUnlock? || (p'.ClearTest? && p'.code.Positive?))
  {
  }
}
