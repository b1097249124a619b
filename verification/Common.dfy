/** Small datatypes and sequence facts shared by the other modules. */
module Common {

  const TWO32: nat := 0x1_0000_0000
  const TWO64: nat := 0x1_0000_0000_0000_0000

  datatype Option<+T> = None | Some(value: T)

  ghost predicate Distinct<T>(s: seq<T>) {
    forall i, j :: 0 <= i < j < |s| ==> s[i] != s[j]
  }

  ghost function Elements<T>(s: seq<T>): set<T> {
    set x | x in s
  }

  function Min(a: int, b: int): int {
    if a < b then a else b
  }

  /** The n integers from a on. */
  ghost function Range(a: int, n: nat): (r: set<int>)
    ensures forall x {:trigger x in r} :: x in r <==> a <= x < a + n
  {
    if n == 0 then {} else Range(a, n - 1) + {a + n - 1}
  }

  lemma {:induction false} RangeSize(a: int, n: nat)
    ensures |Range(a, n)| == n
  {
    if n > 0 {
      RangeSize(a, n - 1);
    }
  }

  lemma {:induction false} SubsetSize<T>(a: set<T>, b: set<T>)
    requires a <= b
    ensures |a| <= |b|
    decreases a
  {
    if a != {} {
      var x :| x in a;
      SubsetSize(a - {x}, b - {x});
    }
  }

  function Sum(s: seq<nat>): nat {
    if s == [] then 0 else s[0] + Sum(s[1..])
  }

  lemma {:induction false} DistinctSize<T>(s: seq<T>)
    requires Distinct(s)
    ensures |Elements(s)| == |s|
  {
    if s != [] {
      DistinctSize(s[1..]);
      assert s == [s[0]] + s[1..] && s[0] !in s[1..];
      assert Elements(s) == {s[0]} + Elements(s[1..]);
    }
  }
}

/** The circular list of the driver, as a sequence in list order (head.next first). */
module Circular {
  import opened Common

  /** Position of the first occurrence of x. */
  function IndexOf<T(==)>(l: seq<T>, x: T): (i: nat)
    requires x in l
    ensures i < |l| && l[i] == x && x !in l[..i]
  {
    if l[0] == x then 0 else 1 + IndexOf(l[1..], x)
  }

  /** Where the cursor moves from x: the next element, or the first one after the last. */
  function Successor<T(==)>(l: seq<T>, x: T): T
    requires x in l
  {
    var i := IndexOf(l, x);
    if i == |l| - 1 then l[0] else l[i + 1]
  }

  /** A list with its cursor and shutdown flag. */
  datatype View<T> = View(list: seq<T>, cursor: Option<T>, shutdown: bool)

  /** append: to the end of the list; the only element is also the cursor. */
  function Appended<T>(v: View<T>, x: T): View<T> {
    v.(list := v.list + [x], cursor := if v.list == [] then Some(x) else v.cursor)
  }

  /** A reservation moves the cursor on. */
  function Advanced<T(==)>(v: View<T>): View<T>
    requires v.cursor.Some? && v.cursor.value in v.list
  {
    v.(cursor := Some(Successor(v.list, v.cursor.value)))
  }

  /** The element after x in list order, None when x is the last one. */
  function After<T(==)>(l: seq<T>, x: T): Option<T>
    requires x in l
  {
    var i := IndexOf(l, x);
    if i == |l| - 1 then None else Some(l[i + 1])
  }

  /** The list with the first x unlinked. */
  function Without<T(==)>(l: seq<T>, x: T): seq<T>
    requires x in l
  {
    var i := IndexOf(l, x);
    l[..i] + l[i + 1..]
  }

  lemma IndexUnique<T>(l: seq<T>, i: nat)
    requires Distinct(l) && i < |l|
    ensures IndexOf(l, l[i]) == i
  {
  }

  /** In a list without repetition the cursor walks the indices modulo the length. */
  lemma SuccessorIsModular<T>(l: seq<T>, i: nat)
    requires Distinct(l) && i < |l|
    ensures Successor(l, l[i]) == l[(i + 1) % |l|]
  {
    IndexUnique(l, i);
    if i + 1 == |l| {
      assert (i + 1) % |l| == 0;
    } else {
      SmallMod(i + 1, |l|);
    }
  }

  lemma SmallMod(k: nat, n: nat)
    requires k < n
    ensures k % n == k
  {
  }

  /** Unlinking the first element leaves the tail. */
  lemma WithoutFirst<T>(l: seq<T>)
    requires l != []
    ensures Without(l, l[0]) == l[1..]
  {
  }

  // clear, between taking the lock and dropping it.

  /** What a locked stretch of clear leaves: the list, where it waits with its saved successor, and what it took out. */
  datatype Swept<T> = Swept(list: seq<T>, at: Option<T>, tpos: Option<T>, destroyed: seq<T>, leaked: seq<T>)

  /** The element after the first one. */
  function Second<T>(l: seq<T>): Option<T> {
    if |l| > 1 then Some(l[1]) else None
  }

  /**
   * The stretch from the first element on, with the successor read when it was
   * first visited: it waits at an element that is not free, otherwise takes it
   * out and goes on to the saved successor. good is the sign of the last wait.
   */
  function SweepFrom<T(==)>(l: seq<T>, free: set<T>, tpos: Option<T>, good: bool): Swept<T>
    requires l != []
  {
    var b, rest := l[0], l[1..];
    if b !in free then Swept(l, Some(b), tpos, [], [])
    else
      var r := if tpos.None? || rest == [] then Swept(rest, None, None, [], [])
               else SweepFrom(rest, free, Second(rest), true);
      if good then r.(destroyed := [b] + r.destroyed) else r.(leaked := [b] + r.leaked)
  }

  /** All elements from the first one that is not free; all of them if there is none. */
  function FromBusy<T(==)>(l: seq<T>, free: set<T>): seq<T> {
    if l == [] || l[0] !in free then l else FromBusy(l[1..], free)
  }

  lemma AllFree<T>(l: seq<T>, free: set<T>)
    ensures |l| == 1 && l[0] in free ==> FromBusy(l, free) == l[1..]
  {
  }

  lemma {:induction false} SweepDestroys<T>(l: seq<T>, free: set<T>, tpos: Option<T>)
    requires l != []
    ensures var r := SweepFrom(l, free, tpos, true);
            r.leaked == [] && r.destroyed + r.list == l && forall x :: x in r.destroyed ==> x in free
  {
    var b, rest := l[0], l[1..];
    if b !in free {
      assert [] + l == l;
    } else if tpos.None? || rest == [] {
      Prepended(b, [], rest, l);
    } else {
      SweepDestroys(rest, free, Second(rest));
      var r := SweepFrom(rest, free, Second(rest), true);
      Prepended(b, r.destroyed, r.list, l);
    }
  }

  lemma Prepended<T>(b: T, d: seq<T>, r: seq<T>, l: seq<T>)
    requires l != [] && b == l[0] && d + r == l[1..]
    ensures [b] + d + r == l
  {
  }

  /** A stretch takes out free elements from the front, in order, and leaks at most the first. */
  lemma SweepTakes<T>(l: seq<T>, free: set<T>, tpos: Option<T>, good: bool)
    requires l != []
    ensures var r := SweepFrom(l, free, tpos, good);
            && r.leaked + r.destroyed + r.list == l
            && (forall x :: x in r.leaked + r.destroyed ==> x in free)
            && r.leaked == if !good && l[0] in free then [l[0]] else []
  {
    SweepDestroys(l, free, tpos);
    var r, b := SweepFrom(l, free, tpos, true), l[0];
    if !good && b in free {
      var d := r.destroyed[1..];
      assert r.destroyed == [b] + d && SweepFrom(l, free, tpos, false) == r.(leaked := [b] + [], destroyed := d);
      assert [b] + d + r.list == l;
    }
  }

  /**
   * It stops at the first element that is not free. If it ends, nothing is
   * left, unless it had read the sentinel already on its first visit: then
   * everything linked since is left.
   */
  lemma {:induction false} SweepStops<T>(l: seq<T>, free: set<T>, tpos: Option<T>, good: bool)
    requires l != []
    ensures var r := SweepFrom(l, free, tpos, good);
            && r.list == (if tpos.None? && l[0] in free then l[1..] else FromBusy(l, free))
            && r.at == (if r.list == [] || (tpos.None? && l[0] in free) then None else Some(r.list[0]))
            && (r.at.Some? ==> r.at.value !in free && r.tpos == if r.list == l then tpos else Second(r.list))
  {
    var b, rest := l[0], l[1..];
    if b in free && tpos.Some? && rest != [] {
      SweepStops(rest, free, Second(rest), true);
      AllFree(rest, free);
    }
  }
}
