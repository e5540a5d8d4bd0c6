/** Waiter queues with lazy removal.

    Every waiting list of the library is a deque of shared waiters carrying an `active` flag.  A waiter that is
    cancelled or timed out only has its flag cleared; it leaves the deque later, when it reaches the front and
    some operation prunes it.  This module relates such a deque to the plain FIFO queue of its active waiters. */
module Waiters {

  type Id = nat

  datatype Option<+T> = None | Some(value: T)

  /** A shared waiter: the flags all waiting lists look at, plus what is particular to one of them. */
  datatype Waiter<+P> = Waiter(
    active: bool,
    completed: bool,
    suspended: bool,   // a continuation has been stored
    payload: P)

  type Table<P> = map<Id, Waiter<P>>

  ghost predicate NoDup(q: seq<Id>) {
    forall i, j :: 0 <= i < j < |q| ==> q[i] != q[j]
  }

  ghost predicate Known<P>(table: Table<P>, q: seq<Id>) {
    forall w :: w in q ==> w in table
  }

  /** The FIFO queue a deque stands for: its active waiters, oldest first. */
  ghost function Live<P>(table: Table<P>, q: seq<Id>): seq<Id> {
    if q == [] then []
    else if q[0] in table && table[q[0]].active then [q[0]] + Live(table, q[1..])
    else Live(table, q[1..])
  }

  /** `q` with every occurrence of `w` taken out. */
  ghost function Without(q: seq<Id>, w: Id): seq<Id> {
    if q == [] then [] else if q[0] == w then Without(q[1..], w) else [q[0]] + Without(q[1..], w)
  }

  /** Drops inactive waiters from the front, and only from the front. */
  method Prune<P>(table: Table<P>, waiters: seq<Id>) returns (rest: seq<Id>)
    requires Known(table, waiters)
    ensures Live(table, rest) == Live(table, waiters)
    ensures rest == [] <==> Live(table, waiters) == []
    ensures |rest| <= |waiters| && rest == waiters[|waiters| - |rest|..]
    ensures rest != [] ==> rest[0] in table && table[rest[0]].active && rest[0] == Live(table, waiters)[0]
  {
    rest := waiters;
    while rest != [] && !table[rest[0]].active
      invariant |rest| <= |waiters| && rest == waiters[|waiters| - |rest|..]
      invariant Live(table, rest) == Live(table, waiters)
    {
      rest := rest[1..];
    }
  }

  /** Prune, then take the front: exactly a dequeue of the plain FIFO queue. */
  method Pop<P>(table: Table<P>, waiters: seq<Id>) returns (front: Option<Id>, rest: seq<Id>)
    requires Known(table, waiters)
    ensures Live(table, waiters) == [] ==> front == None && rest == []
    ensures Live(table, waiters) != [] ==>
              front == Some(Live(table, waiters)[0]) && Live(table, rest) == Live(table, waiters)[1..]
    ensures forall w :: w in rest ==> w in waiters
    ensures front.Some? ==> front.value in waiters && front.value in table && table[front.value].active
    ensures NoDup(waiters) ==> NoDup(rest) && (front.Some? ==> front.value !in rest)
  {
    var pruned := Prune(table, waiters);
    if pruned == [] {
      return None, [];
    }
    front, rest := Some(pruned[0]), pruned[1..];
  }

  lemma {:induction false} LiveAppend<P>(table: Table<P>, q: seq<Id>, w: Id)
    ensures Live(table, q + [w]) == Live(table, q) + (if w in table && table[w].active then [w] else [])
  {
    if q == [] {
      assert q + [w] == [w];
    } else {
      LiveAppend(table, q[1..], w);
      assert (q + [w])[1..] == q[1..] + [w];
    }
  }

  lemma {:induction false} LiveMembers<P>(table: Table<P>, q: seq<Id>)
    ensures forall w :: w in Live(table, q) <==> w in q && w in table && table[w].active
  {
    if q == [] {
    } else {
      LiveMembers(table, q[1..]);
      assert q == [q[0]] + q[1..];
    }
  }

  /** A waiter outside the deque is invisible to it. */
  lemma {:induction false} LiveFrame<P>(table: Table<P>, q: seq<Id>, w: Id, x: Waiter<P>)
    requires w !in q || (w in table && table[w].active == x.active)
    ensures Live(table[w := x], q) == Live(table, q)
  {
    if q == [] {
    } else {
      LiveFrame(table, q[1..], w, x);
    }
  }

  /** Clearing the flag of a waiter removes it from the FIFO queue, wherever it stands in the deque. */
  lemma {:induction false} LiveDeactivate<P>(table: Table<P>, q: seq<Id>, w: Id, x: Waiter<P>)
    requires !x.active
    ensures Live(table[w := x], q) == Without(Live(table, q), w)
  {
    if q == [] {
    } else {
      LiveDeactivate(table, q[1..], w, x);
      if q[0] in table && table[q[0]].active {
        assert Live(table, q)[1..] == Live(table, q[1..]);
      }
    }
  }

  lemma {:induction false} WithoutMembers(q: seq<Id>, w: Id)
    ensures forall x :: x in Without(q, w) <==> x in q && x != w
  {
    if q == [] {
    } else {
      WithoutMembers(q[1..], w);
      assert q == [q[0]] + q[1..];
    }
  }

  lemma {:induction false} WithoutNoDup(q: seq<Id>, w: Id)
    requires NoDup(q)
    ensures NoDup(Without(q, w))
  {
    if q == [] {
    } else {
      WithoutMembers(q[1..], w);
      assert NoDup(q[1..]);
      WithoutNoDup(q[1..], w);
      assert forall i :: 0 <= i < |q[1..]| ==> q[1..][i] == q[i + 1];
      assert q[0] !in q[1..];
    }
  }

  lemma {:induction false} WithoutAbsent(q: seq<Id>, w: Id)
    requires w !in q
    ensures Without(q, w) == q
  {
    if q == [] {
    } else {
      WithoutAbsent(q[1..], w);
    }
  }

  lemma {:induction false} WithoutAppend(q: seq<Id>, r: seq<Id>, w: Id)
    ensures Without(q + r, w) == Without(q, w) + Without(r, w)
  {
    if q == [] {
      assert q + r == r;
    } else {
      WithoutAppend(q[1..], r, w);
      assert (q + r)[1..] == q[1..] + r && (q + r)[0] == q[0];
    }
  }
}
