/**
 * The DMA buffer list as a concurrent protocol (pcieuni_buffer.c).
 *
 * Any number of threads append buffers, reserve them (get_free) and release
 * them (set_free); one of them may run clear. A thread is a program counter
 * with its local variables. One event is one statement of one thread, except
 * that a failed availability test and the unlock after it are one event, and
 * so are the two list updates of append: both touch only data that every
 * thread reads under the spinlock. The availability bit, which waiters read
 * without the lock, changes in an event of its own.
 *
 * wait_event_timeout is modelled by its contract: the condition is evaluated
 * before sleeping, every wake-up makes the sleeper evaluate it again, and the
 * timeout may fire at any time.
 */
module Protocol {
  import opened Common
  import opened Circular

  type Tid = nat
  type Buf = nat

  datatype Flags = Flags(available: bool, waiting: bool)

  /** What the last call of a thread returned. */
  datatype Ret = Never | Void | Got(buffer: Buf) | NoMemory | Busy | Interrupted

  /** Sign of the last return value of wait_event_timeout. */
  datatype Code = Negative | Zero | Positive

  /**
   * History of one get_free call: reservations logged when it started, when
   * it last dropped the lock to wait, and how often its loop went round again.
   */
  datatype Call = Call(start: nat, snap: nat, retries: nat)

  datatype Pc =
    | Idle(ret: Ret)
      // pcieuni_bufferList_append
    | AppendLock(b: Buf)
    | AppendLink(b: Buf)
    | AppendUnlock
      // pcieuni_bufferList_get_free
    | GetLock(c: Call)
    | GetCheck(c: Call)
    | GetTest(b: Buf, c: Call, again: bool)
    | GetCond(b: Buf, c: Call)
    | GetAsleep(b: Buf, c: Call)
    | GetRelock(b: Buf, c: Call)
    | GetRecheck(b: Buf, c: Call)
    | GetReserve(b: Buf, c: Call)
    | GetMark(b: Buf)
    | GetAdvance(b: Buf)
    | GetUnlock(b: Buf)
    | GetFault
      // pcieuni_bufferList_set_free
    | SetLock(b: Buf)
    | SetClear(b: Buf)
    | SetAvail(b: Buf)
    | SetUnlock(b: Buf)
    | SetWake(b: Buf)
      // pcieuni_bufferList_clear
    | ClearLock
    | ClearFlag
    | ClearTest(b: Buf, tpos: Option<Buf>, code: Code)
    | ClearCond(b: Buf, tpos: Option<Buf>)
    | ClearAsleep(b: Buf, tpos: Option<Buf>)
    | ClearRelock(b: Buf, tpos: Option<Buf>, code: Code)
    | ClearDelete(b: Buf, tpos: Option<Buf>, code: Code)
    | ClearUnlock

  datatype Reservation = Reservation(tid: Tid, buf: Buf)

  datatype ClearPhase = NotCalled | Called(tid: Tid) | Finished

  /**
   * list, next, flags, shutdown and lock are the driver's data. The rest is
   * bookkeeping: held says which buffers a client owns, pending holds the
   * buffers created but not linked yet, behind those linked where clear no
   * longer looks, log and released record the reservations and releases.
   */
  datatype State = State(
    list: seq<Buf>,
    next: Option<Buf>,
    flags: map<Buf, Flags>,
    shutdown: bool,
    lock: Option<Tid>,
    pc: map<Tid, Pc>,
    held: map<Tid, set<Buf>>,
    pending: set<Buf>,
    behind: set<Buf>,
    destroyed: set<Buf>,
    leaked: set<Buf>,
    phase: ClearPhase,
    log: seq<Reservation>,
    released: seq<Buf>
  )

  datatype Event =
    | CallAppend(tid: Tid, buf: Buf)
    | CallGet(tid: Tid)
    | CallSet(tid: Tid, buf: Buf)
    | CallClear(tid: Tid)
    | Run(tid: Tid)
    | Timeout(tid: Tid)
    | Interrupt(tid: Tid)

  /** The state after pcieuni_bufferList_init, for a set of threads. */
  function Init(threads: set<Tid>): State {
    State([], None, map[], false, None,
          map t | t in threads :: Idle(Never), map t | t in threads :: {},
          {}, {}, {}, {}, NotCalled, [], [])
  }

  predicate NeedsLock(p: Pc) {
    p.AppendLock? || p.GetLock? || p.GetRelock? || p.SetLock? || p.ClearLock? || p.ClearRelock?
  }

  /** The thread is between spin_lock and spin_unlock. */
  predicate Critical(p: Pc) {
    || p.AppendLink? || p.AppendUnlock?
    || p.GetCheck? || p.GetTest? || p.GetRecheck? || p.GetReserve?
    || p.GetMark? || p.GetAdvance? || p.GetUnlock? || p.GetFault?
    || p.SetClear? || p.SetAvail? || p.SetUnlock?
    || p.ClearFlag? || p.ClearTest? || p.ClearDelete? || p.ClearUnlock?
  }

  /** The clearing thread stands at a buffer. */
  predicate AtBuffer(p: Pc) {
    p.ClearTest? || p.ClearCond? || p.ClearAsleep? || p.ClearRelock? || p.ClearDelete?
  }

  /** clear has returned, or has read the sentinel as the successor of the buffer it stands at. */
  predicate PastEnd(s: State) {
    s.phase.Finished? ||
    (s.phase.Called? && s.phase.tid in s.pc && AtBuffer(s.pc[s.phase.tid]) && s.pc[s.phase.tid].tpos.None?)
  }

  predicate Asleep(p: Pc) {
    p.GetAsleep? || p.ClearAsleep?
  }

  predicate Available(s: State, b: Buf) {
    b in s.flags && s.flags[b].available
  }

  /** Only a holder releases a buffer, buffers are appended once, clear runs once. */
  predicate Enabled(s: State, e: Event) {
    e.tid in s.pc && e.tid in s.held &&
    var p := s.pc[e.tid];
    match e
    case CallAppend(_, b) => p.Idle? && b !in s.flags
    case CallGet(_) => p.Idle?
    case CallSet(t, b) => p.Idle? && b in s.held[t]
    case CallClear(_) => p.Idle? && s.phase.NotCalled?
    case Run(_) => !p.Idle? && !p.GetFault? && !Asleep(p) && (NeedsLock(p) ==> s.lock.None?)
    case Timeout(_) => Asleep(p)
    case Interrupt(_) => Asleep(p)
  }

  function Goto(s: State, t: Tid, p: Pc): State {
    s.(pc := s.pc[t := p])
  }

  function Acquire(s: State, t: Tid, p: Pc): State {
    s.(lock := Some(t), pc := s.pc[t := p])
  }

  function Release(s: State, t: Tid, p: Pc): State {
    s.(lock := None, pc := s.pc[t := p])
  }

  /** buffer = list_entry(list->next): a null cursor is dereferenced by the test that follows. */
  function Fetch(s: State, c: Call, again: bool): Pc {
    if s.next.None? then GetFault else GetTest(s.next.value, c, again)
  }

  function Woken(p: Pc): Pc {
    match p
    case GetAsleep(b, c) => GetCond(b, c)
    case ClearAsleep(b, tpos) => ClearCond(b, tpos)
    case _ => p
  }

  function WakeAll(s: State): State {
    s.(pc := map u | u in s.pc :: Woken(s.pc[u]))
  }

  function SetFlags(s: State, b: Buf, f: Flags): State {
    s.(flags := s.flags[b := f])
  }

  /** Lines 44-47. */
  function Link(s: State, t: Tid, b: Buf): State {
    var list' := s.list + [b];
    Goto(s.(list := list',
            next := if |list'| == 1 then Some(list'[0]) else s.next,
            pending := s.pending - {b},
            behind := if PastEnd(s) then s.behind + {b} else s.behind), t, AppendUnlock)
  }

  /** Lines 237-239 and 253: reserve, or drop the lock and wait. */
  function Test(s: State, t: Tid, b: Buf, c: Call, again: bool): State {
    if Available(s, b) then
      Goto(s, t, GetReserve(b, c))
    else
      Release(s, t, GetCond(b, Call(c.start, |s.log|, if again then c.retries + 1 else c.retries)))
  }

  /** Line 256. */
  function Reserve(s: State, t: Tid, b: Buf): State
    requires t in s.held && b in s.flags
  {
    Goto(SetFlags(s, b, s.flags[b].(available := false))
         .(held := s.held[t := s.held[t] + {b}], log := s.log + [Reservation(t, b)]), t, GetMark(b))
  }

  /** Line 257. */
  function Mark(s: State, t: Tid, b: Buf): State
    requires b in s.flags
  {
    Goto(SetFlags(s, b, s.flags[b].(waiting := true)), t, GetAdvance(b))
  }

  /** Lines 260-265. */
  function Advance(s: State, t: Tid, b: Buf): State {
    Goto(if s.next.Some? && s.next.value in s.list
         then s.(next := Some(Successor(s.list, s.next.value))) else s, t, GetUnlock(b))
  }

  /** Line 284. */
  function Unmark(s: State, t: Tid, b: Buf): State
    requires b in s.flags
  {
    Goto(SetFlags(s, b, s.flags[b].(waiting := false)), t, SetAvail(b))
  }

  /** Line 285. */
  function MakeAvailable(s: State, t: Tid, b: Buf): State
    requires t in s.held && b in s.flags
  {
    Goto(SetFlags(s, b, s.flags[b].(available := true))
         .(held := s.held[t := s.held[t] - {b}], released := s.released + [b]), t, SetUnlock(b))
  }

  /** The head of list_for_each_safe: tpos is read before the body runs. */
  function Visit(list: seq<Buf>, pos: Option<Buf>): Pc {
    if pos.Some? && pos.value in list
    then ClearTest(pos.value, After(list, pos.value), Positive) else ClearUnlock
  }

  /** Lines 74-77. */
  function Shut(s: State, t: Tid): State {
    Goto(s.(shutdown := true), t, Visit(s.list, if s.list == [] then None else Some(s.list[0])))
  }

  /** Lines 101-107 and the step of list_for_each_safe. */
  function Delete(s: State, t: Tid, b: Buf, tpos: Option<Buf>, code: Code): State {
    var list' := if b in s.list then Without(s.list, b) else s.list;
    Goto(s.(list := list',
            destroyed := if code.Positive? then s.destroyed + {b} else s.destroyed,
            leaked := if code.Positive? then s.leaked else s.leaked + {b}), t, Visit(list', tpos))
  }

  /** The next statement of thread t. */
  function Exec(s: State, t: Tid): State
    requires Enabled(s, Run(t))
  {
    match s.pc[t]
    case AppendLock(b) => Acquire(s, t, AppendLink(b))
    case AppendLink(b) => Link(s, t, b)
    case AppendUnlock => Release(s, t, Idle(Void))
    case GetLock(c) => Acquire(s, t, GetCheck(c))
    case GetCheck(c) => if s.shutdown then Release(s, t, Idle(NoMemory)) else Goto(s, t, Fetch(s, c, false))
    case GetTest(b, c, again) => Test(s, t, b, c, again)
    case GetCond(b, c) => Goto(s, t, if Available(s, b) then GetRelock(b, c) else GetAsleep(b, c))
    case GetRelock(b, c) => Acquire(s, t, GetRecheck(b, c))
      // line 251 returns without unlocking
    case GetRecheck(b, c) => Goto(s, t, if s.shutdown then Idle(Interrupted) else Fetch(s, c, true))
    case GetReserve(b, c) => if b in s.flags then Reserve(s, t, b) else s
    case GetMark(b) => if b in s.flags then Mark(s, t, b) else s
    case GetAdvance(b) => Advance(s, t, b)
    case GetUnlock(b) => Release(s, t, Idle(Got(b)))
    case SetLock(b) => Acquire(s, t, SetClear(b))
    case SetClear(b) => if b in s.flags then Unmark(s, t, b) else s
    case SetAvail(b) => if b in s.flags then MakeAvailable(s, t, b) else s
    case SetUnlock(b) => Release(s, t, SetWake(b))
    case SetWake(b) => Goto(WakeAll(s), t, Idle(Void))
    case ClearLock => Acquire(s, t, ClearFlag)
    case ClearFlag => Shut(s, t)
    case ClearTest(b, tpos, code) =>
      if Available(s, b) then Goto(s, t, ClearDelete(b, tpos, code)) else Release(s, t, ClearCond(b, tpos))
    case ClearCond(b, tpos) =>
      Goto(s, t, if Available(s, b) then ClearRelock(b, tpos, Positive) else ClearAsleep(b, tpos))
    case ClearRelock(b, tpos, code) => Acquire(s, t, ClearTest(b, tpos, code))
    case ClearDelete(b, tpos, code) => Delete(s, t, b, tpos, code)
    case ClearUnlock => Release(s, t, Idle(Void)).(phase := Finished)
  }

  /** The wait ends without a wake-up: with 0 if the condition is still false, or with a negative code. */
  function Abandon(s: State, t: Tid, code: Code): State
    requires t in s.pc && Asleep(s.pc[t])
  {
    match s.pc[t]
    case GetAsleep(b, c) =>
      Goto(s, t, match code
                 case Negative => Idle(Interrupted)
                 case _ => if Available(s, b) then GetRelock(b, c) else Idle(Busy))
    case ClearAsleep(b, tpos) =>
      Goto(s, t, ClearRelock(b, tpos, if code.Zero? && Available(s, b) then Positive else code))
  }

  function Apply(s: State, e: Event): State
    requires Enabled(s, e)
  {
    match e
    case CallAppend(t, b) =>
      Goto(SetFlags(s, b, Flags(true, false)).(pending := s.pending + {b}), t, AppendLock(b))
    case CallGet(t) => Goto(s, t, GetLock(Call(|s.log|, |s.log|, 0)))
    case CallSet(t, b) => Goto(s, t, SetLock(b))
    case CallClear(t) => Goto(s, t, ClearLock).(phase := Called(t))
    case Run(t) => Exec(s, t)
    case Timeout(t) => Abandon(s, t, Zero)
    case Interrupt(t) => Abandon(s, t, Negative)
  }

  /** es is a possible interleaving from s. */
  predicate Valid(s: State, es: seq<Event>)
    decreases |es|
  {
    es == [] || (Enabled(s, es[0]) && Valid(Apply(s, es[0]), es[1..]))
  }

  /** The state an interleaving leads to. */
  function Outcome(s: State, es: seq<Event>): State
    requires Valid(s, es)
    decreases |es|
  {
    if es == [] then s else Outcome(Apply(s, es[0]), es[1..])
  }

  ghost predicate Reachable(s: State) {
    exists threads, es :: Valid(Init(threads), es) && Outcome(Init(threads), es) == s
  }
}
