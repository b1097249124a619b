/**
 * The order of reservations over whole runs: round robin for any order of
 * releases, and a bounded FIFO ring when buffers come back in the order in
 * which they were reserved.
 */
module ProtocolRing {
  import opened Common
  import opened Circular
  import opened Protocol
  import opened ProtocolInvariant
  import opened ProtocolEffects
  import opened ProtocolRuns

  /** A stretch of a run with a fixed list: where the cursor stood and how long the logs were at its start. */
  datatype Epoch = Epoch(list: seq<Buf>, first: nat, logged: nat, released: nat) {
    ghost predicate Ok() {
      list != [] && Distinct(list) && first < |list|
    }

    /** The buffer of the k-th reservation of the stretch. */
    function At(k: nat): Buf
      requires list != []
    {
      list[(first + k) % |list|]
    }
  }

  // Residues.

  lemma ModStep(a: nat, n: nat)
    requires n > 0
    ensures (a % n + 1) % n == (a + 1) % n
  {
    var q, r := a / n, a % n;
    assert a == q * n + r;
    if r + 1 < n {
      DivUnique(a + 1, n, q, r + 1);
      SmallMod(r + 1, n);
    } else {
      assert a + 1 == (q + 1) * n + 0;
      DivUnique(a + 1, n, q + 1, 0);
    }
  }

  lemma MulBig(d: int, n: int)
    requires n > 0
    ensures d >= 1 ==> d * n >= n
    ensures d <= -1 ==> d * n <= -n
  {
    if d >= 1 {
      assert d * n == n + (d - 1) * n;
    } else {
      assert d * n == -n + (d + 1) * n;
    }
  }

  lemma DivUnique(a: nat, n: nat, q: nat, r: nat)
    requires r < n && a == q * n + r
    ensures a % n == r
  {
    var q' := a / n;
    assert a == q' * n + a % n;
    assert (q - q') * n == q * n - q' * n;
    MulBig(q - q', n);
  }

  lemma ModPeriod(a: nat, n: nat)
    requires n > 0
    ensures (a + n) % n == a % n
  {
    assert a + n == (a / n + 1) * n + a % n;
    DivUnique(a + n, n, a / n + 1, a % n);
  }

  lemma ModDistinct(a: nat, b: nat, n: nat)
    requires n > 0 && a < b < a + n
    ensures a % n != b % n
  {
    var q, r, d := a / n, a % n, b - a;
    assert b == q * n + (r + d);
    if r + d < n {
      DivUnique(b, n, q, r + d);
    } else {
      assert b == (q + 1) * n + (r + d - n);
      DivUnique(b, n, q + 1, r + d - n);
    }
  }

  // Round robin.

  ghost function Logged(s: State, ep: Epoch): int {
    |s.log| - ep.logged
  }

  /** Reservations so far took the list in cyclic order, and the cursor stands at the next one. */
  ghost predicate Cyclic(s: State, ep: Epoch)
    requires ep.list != []
  {
    && ep.logged <= |s.log| && s.list == ep.list
    && (forall k :: ep.logged <= k < |s.log| ==> s.log[k].buf == ep.At(k - ep.logged))
    && (Advancing(s) ==> Logged(s, ep) > 0)
    && s.next == Some(ep.At(if Advancing(s) then Logged(s, ep) - 1 else Logged(s, ep)))
  }

  /** The statements that touch the log or the cursor. */
  predicate Ringing(p: Pc) {
    p.GetReserve? || p.GetAdvance? || p.AppendLink?
  }

  /** Every other event leaves a thread between its two updates where it was. */
  lemma QuietAdvancing(s: State, s': State, e: Event)
    requires Locks(s) && Enabled(s, e) && Effect(s, s', e) && !(e.Run? && Ringing(s.pc[e.tid]))
    ensures Advancing(s') == Advancing(s)
  {
    if s.lock.Some? && s.lock.value != e.tid {
      assert s'.lock == s.lock;
    }
  }

  lemma ReserveCycles(s: State, t: Tid, ep: Epoch)
    requires Locks(s) && Locals(s) && ep.Ok() && Cyclic(s, ep) && Enabled(s, Run(t)) && s.pc[t].GetReserve?
    ensures Cyclic(Exec(s, t), ep) && Exec(s, t).log == s.log + [Reservation(t, ep.At(Logged(s, ep)))]
  {
    assert LocalOk(s, t, s.pc[t]);
    ReserveStarts(s, t);
    ReserveLogs(s, Exec(s, t), t, ep);
  }

  /** The first update of a reservation: the thread enters the stretch between the two. */
  lemma ReserveStarts(s: State, t: Tid)
    requires Locks(s) && Enabled(s, Run(t)) && s.pc[t].GetReserve? && LocalOk(s, t, s.pc[t])
    ensures !Advancing(s) && Advancing(Exec(s, t)) && s.pc[t].b in s.flags && Exec(s, t) == Reserve(s, t, s.pc[t].b)
    ensures s.next == Some(s.pc[t].b)
  {
  }

  lemma ReserveLogs(s: State, s': State, t: Tid, ep: Epoch)
    requires ep.list != [] && Cyclic(s, ep) && !Advancing(s) && Advancing(s') && s.next.Some?
    requires s'.log == s.log + [Reservation(t, s.next.value)] && s'.list == s.list && s'.next == s.next
    ensures Cyclic(s', ep) && s'.log == s.log + [Reservation(t, ep.At(Logged(s, ep)))]
  {
  }

  lemma AdvanceCycles(s: State, t: Tid, ep: Epoch)
    requires Locks(s) && Locals(s) && ep.Ok() && Cyclic(s, ep) && Enabled(s, Run(t)) && s.pc[t].GetAdvance?
    ensures Cyclic(Exec(s, t), ep) && Exec(s, t).log == s.log
  {
    AdvanceEnds(s, t);
    AdvanceCursor(s, Exec(s, t), ep);
  }

  /** The second update of a reservation: the thread leaves the stretch between the two. */
  lemma AdvanceEnds(s: State, t: Tid)
    requires Locks(s) && Enabled(s, Run(t)) && s.pc[t].GetAdvance?
    ensures Advancing(s) && !Advancing(Exec(s, t)) && Exec(s, t) == Advance(s, t, s.pc[t].b)
  {
  }

  lemma AdvanceCursor(s: State, s': State, ep: Epoch)
    requires ep.Ok() && Cyclic(s, ep) && Advancing(s) && !Advancing(s') && s'.log == s.log && s'.list == s.list
    requires s.next.value in s.list ==> s'.next == Some(Successor(s.list, s.next.value))
    ensures Cyclic(s', ep)
  {
    CycleNext(ep, Logged(s, ep) - 1);
  }

  lemma CycleNext(ep: Epoch, k: nat)
    requires ep.Ok()
    ensures ep.At(k) in ep.list && Successor(ep.list, ep.At(k)) == ep.At(k + 1)
  {
    var i := ep.first + k;
    SuccessorIsModular(ep.list, i % |ep.list|);
    ModStep(i, |ep.list|);
  }

  /** Every event that leaves the list alone keeps the cyclic order. */
  lemma StepCycles(s: State, e: Event, ep: Epoch)
    requires Inv(s) && Enabled(s, e) && ep.Ok() && Cyclic(s, ep) && Apply(s, e).list == ep.list
    ensures Cyclic(Apply(s, e), ep)
  {
    if e.Run? && s.pc[e.tid].GetReserve? {
      ReserveCycles(s, e.tid, ep);
    } else if e.Run? && s.pc[e.tid].GetAdvance? {
      AdvanceCycles(s, e.tid, ep);
    } else {
      EventEffect(s, Apply(s, e), e);
      QuietCycles(s, Apply(s, e), e, ep);
    }
  }

  lemma QuietCycles(s: State, s': State, e: Event, ep: Epoch)
    requires Locks(s) && Enabled(s, e) && Effect(s, s', e) && ep.list != [] && Cyclic(s, ep) && s'.list == ep.list
    requires !(e.Run? && (s.pc[e.tid].GetReserve? || s.pc[e.tid].GetAdvance?))
    ensures Cyclic(s', ep)
  {
    QuietAdvancing(s, s', e);
  }

  /** The list is the same in every state of the run. */
  predicate Fixed(s: State, es: seq<Event>, list: seq<Buf>)
    requires Valid(s, es)
    decreases |es|
  {
    s.list == list && (es != [] ==> Fixed(Apply(s, es[0]), es[1..], list))
  }

  lemma {:induction false} RunCycles(s: State, es: seq<Event>, ep: Epoch)
    requires Inv(s) && Valid(s, es) && ep.Ok() && Cyclic(s, ep) && Fixed(s, es, ep.list)
    ensures Cyclic(Outcome(s, es), ep)
    decreases |es|
  {
    if es != [] {
      StepKeeps(s, es[0]);
      StepCycles(s, es[0], ep);
      RunCycles(Apply(s, es[0]), es[1..], ep);
    }
  }

  /** The stretch that starts at s. */
  function Start(s: State): Epoch
    requires s.next.Some? && s.next.value in s.list
  {
    Epoch(s.list, IndexOf(s.list, s.next.value), |s.log|, |s.released|)
  }

  lemma StartCycles(s: State)
    requires Cursor(s) && Distinct(s.list) && s.lock.None? && !s.shutdown && s.list != []
    ensures s.next.Some? && s.next.value in s.list && Start(s).Ok() && Cyclic(s, Start(s))
  {
    SmallMod(IndexOf(s.list, s.next.value), |s.list|);
  }

  /**
   * Round robin: from any reachable state with the lock free, while the list
   * stays the same, the j-th reservation across all threads takes the j-th
   * buffer after the cursor in cyclic order, in every interleaving and
   * whatever the order of releases.
   */
  lemma RoundRobin(s: State, es: seq<Event>, j: nat)
    requires Reachable(s) && s.lock.None? && !s.shutdown && s.list != []
    requires Valid(s, es) && Fixed(s, es, s.list) && |s.log| + j < |Outcome(s, es).log|
    ensures s.next.Some? && s.next.value in s.list
    ensures Outcome(s, es).log[|s.log| + j].buf == s.list[(IndexOf(s.list, s.next.value) + j) % |s.list|]
  {
    ReachableInv(s);
    StretchCycles(s, es);
    CyclicAt(s, Outcome(s, es), j);
    StartAt(s, j);
  }

  lemma StartAt(s: State, j: nat)
    requires s.next.Some? && s.next.value in s.list
    ensures Start(s).At(j) == s.list[(IndexOf(s.list, s.next.value) + j) % |s.list|]
  {
  }

  lemma StretchCycles(s: State, es: seq<Event>)
    requires Inv(s) && s.lock.None? && !s.shutdown && s.list != [] && Valid(s, es) && Fixed(s, es, s.list)
    ensures s.next.Some? && s.next.value in s.list && Start(s).Ok() && Cyclic(Outcome(s, es), Start(s))
  {
    StartCycles(s);
    RunCycles(s, es, Start(s));
  }

  lemma CyclicAt(s: State, s': State, j: nat)
    requires s.next.Some? && s.next.value in s.list && Start(s).Ok() && Cyclic(s', Start(s))
    requires |s.log| + j < |s'.log|
    ensures s'.log[|s.log| + j].buf == Start(s).At(j)
  {
  }

  // Releases in reservation order.

  ghost function Freed(s: State, ep: Epoch): int {
    |s.released| - ep.released
  }

  /** The buffers released since the start came back in the order in which they were reserved. */
  ghost predicate InOrder(s: State, ep: Epoch) {
    && ep.released <= |s.released| && ep.logged <= |s.log|
    && Freed(s, ep) <= Logged(s, ep)
    && (forall i :: ep.released <= i < |s.released| ==> s.released[i] == s.log[i - ep.released + ep.logged].buf)
  }

  /** The reserved buffers are the cyclic window that ends just before the cursor. */
  ghost predicate Window(s: State, ep: Epoch)
    requires ep.list != []
  {
    && 0 <= Freed(s, ep) <= Logged(s, ep) <= Freed(s, ep) + |ep.list|
    && (forall k :: Freed(s, ep) <= k < Freed(s, ep) + |ep.list| ==>
          (Available(s, ep.At(k)) <==> k >= Logged(s, ep)))
  }

  function Bufs(log: seq<Reservation>): seq<Buf> {
    if log == [] then [] else [log[0].buf] + Bufs(log[1..])
  }

  /** The outstanding reservations, oldest first. */
  ghost function Queue(s: State, ep: Epoch): seq<Buf>
    requires ep.logged <= |s.log| && 0 <= Freed(s, ep) <= Logged(s, ep)
  {
    Bufs(s.log[ep.logged + Freed(s, ep)..])
  }

  /** Two positions less than a round apart are different buffers; a round apart they are the same. */
  lemma AtDistinct(ep: Epoch, j: nat, k: nat)
    requires ep.Ok() && j < k < j + |ep.list|
    ensures ep.At(j) != ep.At(k)
  {
    ModDistinct(ep.first + j, ep.first + k, |ep.list|);
  }

  lemma AtPeriod(ep: Epoch, k: nat)
    requires ep.Ok()
    ensures ep.At(k + |ep.list|) == ep.At(k)
  {
    ModPeriod(ep.first + k, |ep.list|);
  }

  /** A reservation extends the window by one buffer, so the window was not a full round. */
  lemma ReserveWindow(s: State, s': State, t: Tid, ep: Epoch)
    requires ep.Ok() && Cyclic(s, ep) && Window(s, ep) && t in s.held && Available(s, ep.At(Logged(s, ep)))
    requires s' == Reserve(s, t, ep.At(Logged(s, ep)))
    ensures Window(s', ep) && Logged(s, ep) - Freed(s, ep) < |ep.list|
  {
    var n, h, q := |ep.list|, Freed(s, ep), Logged(s, ep);
    assert q < h + n by {
      AtPeriod(ep, h);
      assert h < h + n ==> (Available(s, ep.At(h)) <==> h >= q);
    }
    forall k | h <= k < h + n ensures Available(s', ep.At(k)) <==> k >= q + 1 {
      if k < q {
        AtDistinct(ep, k, q);
      } else if k > q {
        AtDistinct(ep, q, k);
      }
    }
  }

  /** A release in order takes the oldest buffer off the window. */
  lemma ReleaseWindow(s: State, s': State, t: Tid, b: Buf, ep: Epoch)
    requires ep.Ok() && Cyclic(s, ep) && Window(s, ep) && t in s.held && b in s.flags
    requires s' == MakeAvailable(s, t, b) && InOrder(s', ep)
    ensures Window(s', ep) && Freed(s, ep) < Logged(s, ep) && b == ep.At(Freed(s, ep))
  {
    var n, h, q := |ep.list|, Freed(s, ep), Logged(s, ep);
    assert h < q && b == ep.At(h) by {
      assert s'.released[|s.released|] == b && s'.log == s.log;
    }
    forall k | h + 1 <= k < h + 1 + n ensures Available(s', ep.At(k)) <==> k >= q {
      if k < h + n {
        AtDistinct(ep, h, k);
      } else {
        AtPeriod(ep, h);
      }
    }
  }

  lemma QuietWindow(s: State, s': State, e: Event, ep: Epoch)
    requires Partition(s) && ep.Ok() && Cyclic(s, ep) && Window(s, ep) && Effect(s, s', e)
    requires !(e.Run? && (s.pc[e.tid].GetReserve? || s.pc[e.tid].SetAvail?))
    ensures Window(s', ep) && Queue(s', ep) == Queue(s, ep)
  {
    var h, n := Freed(s, ep), |ep.list|;
    forall k | h <= k < h + n ensures Available(s', ep.At(k)) == Available(s, ep.At(k)) {
      assert ep.At(k) in s.list;
    }
  }

  lemma {:induction false} BufsAppend(log: seq<Reservation>, r: Reservation)
    ensures Bufs(log + [r]) == Bufs(log) + [r.buf]
  {
    if log != [] {
      assert (log + [r])[1..] == log[1..] + [r];
      BufsAppend(log[1..], r);
    }
  }

  lemma {:induction false} BufsSize(log: seq<Reservation>)
    ensures |Bufs(log)| == |log|
  {
    if log != [] {
      BufsSize(log[1..]);
    }
  }

  /** A bounded FIFO ring: what one event may do to its queue. */
  ghost predicate RingStep(cap: nat, p: Pc, run: bool, queue: seq<Buf>, queue': seq<Buf>) {
    if run && p.GetReserve? then |queue| < cap && queue' == queue + [p.b]
    else if run && p.SetAvail? then queue == [p.b] + queue'
    else queue' == queue
  }

  lemma ReserveRing(s: State, t: Tid, ep: Epoch)
    requires Locks(s) && Locals(s) && ep.Ok() && Cyclic(s, ep) && Window(s, ep)
    requires Enabled(s, Run(t)) && s.pc[t].GetReserve?
    ensures Window(Exec(s, t), ep)
    ensures RingStep(|ep.list|, s.pc[t], true, Queue(s, ep), Queue(Exec(s, t), ep))
  {
    assert LocalOk(s, t, s.pc[t]);
    var b, s' := s.pc[t].b, Exec(s, t);
    ReserveStarts(s, t);
    assert b == ep.At(Logged(s, ep));
    ReserveWindow(s, s', t, ep);
    QueueGrows(s, s', t, b, ep);
  }

  lemma QueueGrows(s: State, s': State, t: Tid, b: Buf, ep: Epoch)
    requires s'.log == s.log + [Reservation(t, b)] && s'.released == s.released
    requires ep.logged <= |s.log| && 0 <= Freed(s, ep) <= Logged(s, ep)
    ensures Queue(s', ep) == Queue(s, ep) + [b] && |Queue(s, ep)| == |s.log| - ep.logged - Freed(s, ep)
  {
    var k := ep.logged + Freed(s, ep);
    BufsSize(s.log[k..]);
    BufsAppend(s.log[k..], Reservation(t, b));
    assert s'.log[k..] == s.log[k..] + [Reservation(t, b)];
  }

  lemma ReleaseRing(s: State, t: Tid, ep: Epoch)
    requires Locks(s) && Locals(s) && ep.Ok() && Cyclic(s, ep) && Window(s, ep)
    requires Enabled(s, Run(t)) && s.pc[t].SetAvail? && InOrder(Exec(s, t), ep)
    ensures Window(Exec(s, t), ep)
    ensures RingStep(|ep.list|, s.pc[t], true, Queue(s, ep), Queue(Exec(s, t), ep))
  {
    assert LocalOk(s, t, s.pc[t]);
    var b, s' := s.pc[t].b, Exec(s, t);
    assert s' == MakeAvailable(s, t, b);
    ReleaseWindow(s, s', t, b, ep);
    var k := ep.logged + Freed(s, ep);
    assert s.log[k..][1..] == s'.log[k + 1..];
    assert s.log[k].buf == b;
  }

  /** Every event that leaves the list alone and releases in order is a step of the ring. */
  lemma StepRing(s: State, e: Event, ep: Epoch)
    requires Inv(s) && Enabled(s, e) && ep.Ok() && Cyclic(s, ep) && Window(s, ep)
    requires Apply(s, e).list == ep.list && InOrder(Apply(s, e), ep)
    ensures Window(Apply(s, e), ep)
    ensures RingStep(|ep.list|, s.pc[e.tid], e.Run?, Queue(s, ep), Queue(Apply(s, e), ep))
  {
    if e.Run? && s.pc[e.tid].GetReserve? {
      ReserveRing(s, e.tid, ep);
    } else if e.Run? && s.pc[e.tid].SetAvail? {
      ReleaseRing(s, e.tid, ep);
    } else {
      EventEffect(s, Apply(s, e), e);
      QuietWindow(s, Apply(s, e), e, ep);
    }
  }

  /** The list is fixed and releases are in order in every state of the run. */
  ghost predicate Ordered(s: State, es: seq<Event>, ep: Epoch)
    requires Valid(s, es)
    decreases |es|
  {
    s.list == ep.list && InOrder(s, ep) && (es != [] ==> Ordered(Apply(s, es[0]), es[1..], ep))
  }

  lemma {:induction false} RunRing(s: State, es: seq<Event>, ep: Epoch)
    requires Inv(s) && Valid(s, es) && ep.Ok() && Cyclic(s, ep) && Window(s, ep) && Ordered(s, es, ep)
    ensures Inv(Outcome(s, es)) && Cyclic(Outcome(s, es), ep) && Window(Outcome(s, es), ep)
    decreases |es|
  {
    if es != [] {
      var s' := Apply(s, es[0]);
      StepKeeps(s, es[0]);
      StepCycles(s, es[0], ep);
      StepRing(s, es[0], ep);
      RunRing(s', es[1..], ep);
    }
  }

  lemma StartWindow(s: State)
    requires s.next.Some? && s.next.value in s.list && (forall b :: b in s.list ==> Available(s, b))
    ensures Window(s, Start(s))
  {
  }

  /** A thread at the test of get_free has to wait exactly when all buffers are reserved. */
  lemma WaitsExactlyWhenFull(s: State, t: Tid, ep: Epoch)
    requires Locks(s) && Locals(s) && ep.Ok() && Cyclic(s, ep) && Window(s, ep) && t in s.pc && s.pc[t].GetTest?
    ensures Available(s, s.pc[t].b) <==> |Queue(s, ep)| < |ep.list|
  {
    assert LocalOk(s, t, s.pc[t]);
    assert !Advancing(s);
    var h, q, n := Freed(s, ep), Logged(s, ep), |ep.list|;
    BufsSize(s.log[ep.logged + h..]);
    AtPeriod(ep, h);
    assert Available(s, ep.At(h)) <==> h >= q;
  }

  /**
   * FIFO ring: from a reachable state with every buffer available, while the
   * list stays the same and releases follow the order of reservations, the
   * reserved buffers are always the window before the cursor and get_free
   * waits exactly when all n are reserved.
   */
  lemma FifoRing(s: State, es: seq<Event>, t: Tid)
    requires Reachable(s) && s.lock.None? && !s.shutdown && s.list != []
    requires forall b :: b in s.list ==> Available(s, b)
    requires s.next.Some? && s.next.value in s.list && Valid(s, es) && Ordered(s, es, Start(s))
    ensures Window(Outcome(s, es), Start(s)) && Start(s).logged <= |Outcome(s, es).log|
    ensures var end := Outcome(s, es);
            t in end.pc && end.pc[t].GetTest? ==>
              (Available(end, end.pc[t].b) <==> |Queue(end, Start(s))| < |s.list|)
  {
    ReachableInv(s);
    FifoFrom(s, es);
    var end := Outcome(s, es);
    if t in end.pc && end.pc[t].GetTest? {
      WaitsExactlyWhenFull(end, t, Start(s));
    }
  }

  lemma FifoFrom(s: State, es: seq<Event>)
    requires Inv(s) && s.lock.None? && !s.shutdown && s.list != []
    requires forall b :: b in s.list ==> Available(s, b)
    requires s.next.Some? && s.next.value in s.list && Valid(s, es) && Ordered(s, es, Start(s))
    ensures Start(s).Ok() && Inv(Outcome(s, es)) && Cyclic(Outcome(s, es), Start(s)) && Window(Outcome(s, es), Start(s))
  {
    StartCycles(s);
    StartWindow(s);
    RunRing(s, es, Start(s));
  }
}
