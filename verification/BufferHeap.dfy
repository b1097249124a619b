/**
 * The buffer list as the driver stores it: an intrusive, circular, doubly
 * linked list with a sentinel, and a cursor. Each method is one stretch of
 * pcieuni_buffer.c between taking and dropping the spinlock; what it does to
 * the pointers is proved to be what View says about the sequence of buffers.
 */
module BufferHeap {
  import opened Common
  import opened Circular

  /** struct list_head with the state bits of the buffer around it. */
  class Node {
    var next: Node
    var prev: Node
    var available: bool
    var waiting: bool

    /** pcieuni_buffer_create: available, not waiting, not linked. */
    constructor ()
      ensures next == this && prev == this && available && !waiting
    {
      next, prev, available, waiting := this, this, true, false;
    }
  }

  /** Position i of the ring: the sentinel at both ends, the buffers between. */
  ghost function Nth(head: Node, nodes: seq<Node>, i: nat): Node
    requires i <= |nodes| + 1
  {
    if i == 0 || i == |nodes| + 1 then head else nodes[i - 1]
  }

  /** Positions i and i + 1 point at each other. */
  ghost predicate Joined(head: Node, nodes: seq<Node>, i: nat)
    requires i <= |nodes|
    reads head, nodes
  {
    Nth(head, nodes, i).next == Nth(head, nodes, i + 1) && Nth(head, nodes, i + 1).prev == Nth(head, nodes, i)
  }

  /** What one locked stretch of get_free finds. */
  datatype Attempt = Shut | Fault | MustWait(buffer: Node) | Got(buffer: Node)

  class BufferList {
    const head: Node
    var cursor: Node?
    var shutDown: bool
    ghost var nodes: seq<Node>

    /** The nodes in list order are linked both ways, and the sentinel closes the ring. */
    ghost predicate Valid()
      reads this, head, nodes
    {
      && head !in nodes && Distinct(nodes)
      && (forall i {:trigger Joined(head, nodes, i)} :: 0 <= i <= |nodes| ==> Joined(head, nodes, i))
    }

    /** The cursor is null exactly on a list that never had a buffer, until clear shuts the list down. */
    ghost predicate CursorOk()
      reads this
    {
      !shutDown ==> if nodes == [] then cursor == null else cursor != null && cursor in nodes
    }

    ghost function Abs(): View<Node>
      reads this
    {
      View(nodes, if cursor == null then None else (var c: Node := cursor; Some(c)), shutDown)
    }

    ghost function Free(): set<Node>
      reads this, nodes
    {
      set n | n in nodes && n.available
    }

    /** The cursor is a buffer of the list. */
    ghost predicate Movable()
      reads this
    {
      cursor != null && cursor in nodes
    }

    /** A saved successor, None for the sentinel. */
    ghost function Saved(tpos: Node): Option<Node> {
      if tpos == head then None else Some(tpos)
    }

    /** Where clear can stand: at the end, or at the first buffer with the second one or the sentinel next. */
    ghost predicate Stands(pos: Node, tpos: Node)
      reads this
    {
      pos == head || (nodes != [] && pos == nodes[0] && (tpos == head || (|nodes| > 1 && tpos == nodes[1])))
    }

    /** pcieuni_bufferList_init */
    constructor ()
      ensures Valid() && CursorOk() && Abs() == View([], None, false) && fresh(head)
    {
      head := new Node();
      cursor, shutDown, nodes := null, false, [];
    }

    /** pcieuni_bufferList_append: list_add_tail, then the cursor if the list is singular. */
    method Append(b: Node)
      requires Valid() && CursorOk() && b != head && b !in nodes
      modifies this, b`next, b`prev, head, head.prev`next
      ensures Valid() && CursorOk()
      ensures Abs() == Appended(old(Abs()), b)
      ensures forall pos, tpos :: pos in old(nodes) && (tpos == head || tpos in old(nodes)) && old(Stands(pos, tpos)) ==>
                Stands(pos, tpos)
    {
      ghost var n := |nodes|;
      assert Joined(head, nodes, n) && Joined(head, nodes, 0);
      var last := head.prev;
      head.prev := b;
      b.next := head;
      b.prev := last;
      last.next := b;
      nodes := nodes + [b];
      forall i | 0 <= i <= n + 1 ensures Joined(head, nodes, i) {
        assert i < n ==> old(Joined(head, nodes, i));
      }
      assert Joined(head, nodes, 0);
      if head.next != head && head.next == head.prev {
        cursor := head.next;
      }
    }

    /** pcieuni_bufferList_get_free between taking the lock and dropping it, to wait or to return. */
    method TakeFree() returns (r: Attempt)
      requires Valid() && CursorOk()
      modifies this`cursor, nodes
      ensures Valid() && CursorOk() && nodes == old(nodes)
      ensures old(shutDown) ==> r == Shut
      ensures !old(shutDown) && old(nodes) == [] ==> r == Fault
      ensures !old(shutDown) && old(nodes) != [] ==>
                r == if old(cursor.available) then Got(old(cursor)) else MustWait(old(cursor))
      ensures Free() == if r.Got? then old(Free()) - {r.buffer} else old(Free())
      ensures if r.Got? then Abs() == Advanced(old(Abs())) && !r.buffer.available && r.buffer.waiting
              else Abs() == old(Abs()) && unchanged(nodes)
      ensures forall n :: n in nodes && r != Got(n) ==> n.available == old(n.available) && n.waiting == old(n.waiting)
    {
      if shutDown {
        return Shut;
      }
      if cursor == null {
        return Fault;
      }
      var buffer: Node := cursor;
      if !buffer.available {
        return MustWait(buffer);
      }
      buffer.available := false;
      buffer.waiting := true;
      ghost var i := IndexOf(nodes, buffer);
      assert old(Joined(head, nodes, i + 1)) && old(Joined(head, nodes, 0));
      if buffer.next == head {
        cursor := head.next;
      } else {
        cursor := buffer.next;
      }
      forall j | 0 <= j <= |nodes| ensures Joined(head, nodes, j) {
        assert old(Joined(head, nodes, j));
      }
      return Got(buffer);
    }

    /** pcieuni_bufferList_set_free between taking the lock and dropping it. */
    method SetFree(b: Node)
      requires Valid()
      modifies b`available, b`waiting
      ensures Valid() && Abs() == old(Abs()) && b.available && !b.waiting
      ensures Free() == old(Free()) + (if b in nodes then {b} else {})
    {
      b.waiting := false;
      b.available := true;
      forall i | 0 <= i <= |nodes| ensures Joined(head, nodes, i) {
        assert old(Joined(head, nodes, i));
      }
    }

    /** Reserving a buffer and releasing it restores the free buffers; only the cursor has moved on. */
    method TakeAndSetFree() returns (r: Attempt)
      requires Valid() && CursorOk()
      modifies this`cursor, nodes
      ensures Valid() && Free() == old(Free())
      ensures if r.Got? then old(Movable()) && Abs() == Advanced(old(Abs())) else Abs() == old(Abs())
    {
      r := TakeFree();
      if r.Got? {
        SetFree(r.buffer);
      }
    }

    /** list_del: the neighbours are linked to each other. */
    method Unlink(pos: Node)
      requires Valid() && nodes != [] && pos == nodes[0]
      modifies this`nodes, pos.next`prev, pos.prev`next
      ensures Valid() && nodes == old(nodes)[1..]
      ensures pos.next == old(pos.next)
    {
      assert Joined(head, nodes, 0) && Joined(head, nodes, 1);
      pos.next.prev := pos.prev;
      pos.prev.next := pos.next;
      nodes := nodes[1..];
      forall i | 0 <= i <= |nodes| ensures Joined(head, nodes, i) {
        assert old(Joined(head, nodes, i + 1));
      }
    }

    /** The head of clear: the flag, and the first two positions of list_for_each_safe. */
    method RaiseFlag() returns (pos: Node, tpos: Node)
      requires Valid()
      modifies this`shutDown
      ensures Valid() && Abs() == old(Abs()).(shutdown := true)
      ensures Stands(pos, tpos) && Saved(tpos) == Second(nodes)
    {
      assert Joined(head, nodes, 0) && (nodes != [] ==> Joined(head, nodes, 1));
      shutDown := true;
      pos := head.next;
      tpos := pos.next;
    }

    /**
     * pcieuni_bufferList_clear from taking the lock to dropping it, to wait or
     * for good, with the positions and the wait code of the stretch before.
     */
    method Sweep(first: Node, second: Node, code: int)
      returns (pos: Node, tpos: Node, destroyed: seq<Node>, leaked: seq<Node>)
      requires Valid() && Stands(first, second)
      modifies this`nodes, head`next, head`prev, nodes`next, nodes`prev
      ensures Valid() && Free() <= old(Free()) && cursor == old(cursor) && shutDown == old(shutDown)
      ensures first == head ==> pos == head && nodes == old(nodes) && destroyed == leaked == []
      ensures first != head ==>
                var r := SweepFrom(old(nodes), old(Free()), Saved(second), code > 0);
                && nodes == r.list && destroyed == r.destroyed && leaked == r.leaked
                && (if r.at.Some? then Stands(pos, tpos) && pos == r.at.value && Saved(tpos) == r.tpos else pos == head)
    {
      pos, tpos, destroyed, leaked := first, second, [], [];
      var c := code;
      ghost var free, before := Free(), nodes;
      ghost var rest := Ahead(nodes, free, pos != head, Saved(tpos), c > 0);
      ghost var all := rest;
      while pos != head
        invariant Valid() && Stands(pos, tpos) && (forall n :: n in nodes ==> n in before && n.available == (n in free))
        invariant first == head ==> pos == head && nodes == before && destroyed == leaked == []
        invariant rest == Ahead(nodes, free, pos != head, Saved(tpos), c > 0) && Extends(all, rest, destroyed, leaked)
        decreases |nodes|
      {
        if !pos.available {
          break;
        }
        assert Joined(head, nodes, 0) && Joined(head, nodes, 1);
        assert pos.prev == head && (pos.next == head || pos.next in nodes);
        ghost var next := SweepStep(nodes, free, Saved(tpos), c > 0);
        ExtendsStep(all, rest, next, pos, c > 0, destroyed, leaked);
        Unlink(pos);
        if c > 0 {
          destroyed := destroyed + [pos];
        } else {
          leaked := leaked + [pos];
        }
        c, rest := 1, next;
        pos := tpos;
        if pos != head {
          assert Joined(head, nodes, 1);
          tpos := pos.next;
        }
      }
    }
  }

  /** The whole stretch is what was taken out so far and then the rest of the stretch. */
  ghost predicate Extends(all: Swept<Node>, rest: Swept<Node>, destroyed: seq<Node>, leaked: seq<Node>) {
    all == rest.(destroyed := destroyed + rest.destroyed, leaked := leaked + rest.leaked)
  }

  /** The stretch still to come: at the end there is none. */
  ghost function Ahead(l: seq<Node>, free: set<Node>, more: bool, tpos: Option<Node>, good: bool): Swept<Node>
    requires more ==> l != []
  {
    if more then SweepFrom(l, free, tpos, good) else Swept(l, None, None, [], [])
  }

  lemma SweepStep(l: seq<Node>, free: set<Node>, tpos: Option<Node>, good: bool) returns (next: Swept<Node>)
    requires l != [] && l[0] in free && (tpos.Some? ==> |l| > 1)
    ensures next == Ahead(l[1..], free, tpos.Some?, Second(l[1..]), true)
    ensures SweepFrom(l, free, tpos, good) ==
            if good then next.(destroyed := [l[0]] + next.destroyed) else next.(leaked := [l[0]] + next.leaked)
  {
    next := Ahead(l[1..], free, tpos.Some?, Second(l[1..]), true);
  }

  lemma ExtendsStep(all: Swept<Node>, r: Swept<Node>, next: Swept<Node>, b: Node, good: bool,
                    destroyed: seq<Node>, leaked: seq<Node>)
    requires Extends(all, r, destroyed, leaked)
    requires r == if good then next.(destroyed := [b] + next.destroyed) else next.(leaked := [b] + next.leaked)
    ensures if good then Extends(all, next, destroyed + [b], leaked) else Extends(all, next, destroyed, leaked + [b])
  {
    assert destroyed + ([b] + next.destroyed) == destroyed + [b] + next.destroyed;
    assert leaked + ([b] + next.leaked) == leaked + [b] + next.leaked;
  }
}
