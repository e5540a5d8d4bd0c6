/** `async_mutex` and `async_semaphore`: lock-protected regions over a deque of waiters with flags.  Both are proved
    against the plain FIFO functions of `PermitSpec`, the mutex as a semaphore with one permit. */
module AsyncSync {
  import opened Waiters
  import opened Counting
  import P = PermitSpec

  /** A waiter of a synchronisation primitive; the payload is its `cancelled` flag. */
  type SyncTable = Table<bool>

  const NEW_WAITER: Waiter<bool> := Waiter(true, false, false, false)

  /** The shared waiters and their deque, against the FIFO queue and the requests that ended. */
  ghost predicate Rep(table: SyncTable, deque: seq<Id>, queue: seq<Id>, granted: seq<Id>, cancelled: set<Id>) {
    && Known(table, deque) && NoDup(deque) && queue == Live(table, deque)
    && (forall w :: w in table ==> RepWaiter(table[w], w, granted, cancelled))
    && (forall w :: w in deque && table[w].active ==> !table[w].completed)
  }

  ghost predicate RepWaiter(x: Waiter<bool>, w: Id, granted: seq<Id>, cancelled: set<Id>) {
    && (x.completed <==> w in granted || w in cancelled)
    && (x.completed ==> (x.payload <==> w in cancelled))
    && (!x.completed ==> x.active && !x.payload)
  }

  /** `prune_inactive` on a represented deque. */
  method PruneInactive(table: SyncTable, deque: seq<Id>, ghost queue: seq<Id>, ghost granted: seq<Id>,
                       ghost cancelled: set<Id>) returns (rest: seq<Id>)
    requires Rep(table, deque, queue, granted, cancelled)
    ensures Rep(table, rest, queue, granted, cancelled)
    ensures forall w :: w in rest ==> w in deque
    ensures rest == [] <==> queue == []
    ensures rest != [] ==> rest[0] in table && rest[0] == queue[0]
  {
    rest := Prune(table, deque);
  }

  /** A new request, granted at once or still undecided. */
  lemma Create(table: SyncTable, deque: seq<Id>, queue: seq<Id>, granted: seq<Id>, cancelled: set<Id>,
               w: Id, acquired: bool)
    requires Rep(table, deque, queue, granted, cancelled) && w !in table && w !in granted && w !in cancelled
    ensures Rep(table[w := NEW_WAITER.(completed := acquired)], deque, queue,
                if acquired then granted + [w] else granted, cancelled)
    ensures w !in deque
  {
    LiveFrame(table, deque, w, NEW_WAITER.(completed := acquired));
  }

  /** An undecided request finds its stop token requested. */
  lemma StopEarly(table: SyncTable, deque: seq<Id>, queue: seq<Id>, granted: seq<Id>, cancelled: set<Id>, w: Id)
    requires Rep(table, deque, queue, granted, cancelled) && w in table && w !in deque && !table[w].completed
    ensures Rep(table[w := table[w].(completed := true, payload := true)], deque, queue, granted, cancelled + {w})
  {
    LiveFrame(table, deque, w, table[w].(completed := true, payload := true));
  }

  /** An undecided request gets its permit in the second attempt. */
  lemma GrantLate(table: SyncTable, deque: seq<Id>, queue: seq<Id>, granted: seq<Id>, cancelled: set<Id>, w: Id)
    requires Rep(table, deque, queue, granted, cancelled) && w in table && w !in deque && !table[w].completed
    ensures Rep(table[w := table[w].(suspended := true, completed := true)], deque, queue, granted + [w], cancelled)
  {
    LiveFrame(table, deque, w, table[w].(suspended := true, completed := true));
  }

  /** A request that never had a waiter object gets a permit. */
  lemma GrantForeign(table: SyncTable, deque: seq<Id>, queue: seq<Id>, granted: seq<Id>, cancelled: set<Id>, w: Id)
    requires Rep(table, deque, queue, granted, cancelled) && w !in table
    ensures Rep(table, deque, queue, granted + [w], cancelled)
  {
  }

  /** An undecided request queues. */
  lemma Enqueue(table: SyncTable, deque: seq<Id>, queue: seq<Id>, granted: seq<Id>, cancelled: set<Id>, w: Id)
    requires Rep(table, deque, queue, granted, cancelled) && w in table && w !in deque && !table[w].completed
    ensures Rep(table[w := table[w].(suspended := true)], deque + [w], queue + [w], granted, cancelled)
  {
    var x := table[w].(suspended := true);
    LiveFrame(table, deque, w, x);
    LiveAppend(table[w := x], deque, w);
  }

  /** The waiter at the front of a pruned deque is popped and granted. */
  lemma GrantFront(table: SyncTable, deque: seq<Id>, queue: seq<Id>, granted: seq<Id>, cancelled: set<Id>, w: Id)
    requires Rep(table, deque, queue, granted, cancelled)
    requires deque != [] && queue != [] && w == deque[0] == queue[0]
    ensures w in table
    ensures Rep(table[w := Waiter(false, true, table[w].suspended, false)], deque[1..], queue[1..],
                granted + [w], cancelled)
  {
    LiveMembers(table, deque);
    var x := Waiter(false, true, table[w].suspended, false);
    LiveFrame(table, deque[1..], w, x);
    assert queue == [w] + Live(table, deque[1..]);
  }

  /** Pops and grants the waiter at the front of a pruned deque, then prunes again: one turn of a hand-out loop. */
  method GrantNext(table: SyncTable, deque: seq<Id>, ghost queue: seq<Id>, ghost granted: seq<Id>,
                   ghost cancelled: set<Id>) returns (w: Id, table': SyncTable, rest: seq<Id>)
    requires Rep(table, deque, queue, granted, cancelled)
    requires deque != [] && queue != [] && deque[0] == queue[0]
    ensures w == queue[0] && Rep(table', rest, queue[1..], granted + [w], cancelled)
    ensures rest == [] <==> queue[1..] == []
    ensures rest != [] ==> rest[0] == queue[1..][0]
    ensures AllSuspended(table, deque) ==> AllSuspended(table', rest)
  {
    w := deque[0];
    GrantFront(table, deque, queue, granted, cancelled, w);
    hide Rep;
    table' := table[w := Waiter(false, true, table[w].suspended, false)];
    rest := PruneInactive(table', deque[1..], queue[1..], granted + [w], cancelled);
  }

  /** A cancellation finds its waiter undecided exactly if it is in the FIFO queue. */
  lemma Status(table: SyncTable, deque: seq<Id>, queue: seq<Id>, granted: seq<Id>, cancelled: set<Id>, w: Id)
    requires Rep(table, deque, queue, granted, cancelled) && w in table && (table[w].completed || w in deque)
    ensures w in queue <==> table[w].active && !table[w].completed
  {
    LiveMembers(table, deque);
  }

  /** A waiter is cancelled where it stands; the deque keeps it until it is pruned. */
  lemma CancelInPlace(table: SyncTable, deque: seq<Id>, queue: seq<Id>, granted: seq<Id>, cancelled: set<Id>, w: Id)
    requires Rep(table, deque, queue, granted, cancelled)
    requires w in table && table[w].active && !table[w].completed
    ensures Rep(table[w := Waiter(false, true, table[w].suspended, true)], deque, Without(queue, w), granted,
                cancelled + {w})
    ensures w in deque <==> w in queue
  {
    LiveMembers(table, deque);
    LiveDeactivate(table, deque, w, Waiter(false, true, table[w].suspended, true));
  }

  /** Whoever sits in the deque has stored its continuation. */
  predicate AllSuspended(table: SyncTable, deque: seq<Id>) {
    forall w :: w in deque ==> w in table && table[w].suspended
  }

  class AsyncSemaphore {
    var permits: int
    var waiters: seq<Id>
    var table: SyncTable
    ghost var view: P.Permits

    ghost predicate Valid()
      reads this
    {
      && permits == view.permits && Rep(table, waiters, view.queue, view.granted, view.cancelled)
      && (permits > 0 ==> view.queue == []) && AllSuspended(table, waiters)
    }

    constructor (initial: int)
      requires initial >= 0
      ensures Valid() && view == P.Init(initial)
    {
      permits, waiters, table := initial, [], map[];
      view := P.Init(initial);
    }

    method AcquireReady(w: Id) returns (acquired: bool)
      requires Valid() && w !in table && w !in view.granted && w !in view.cancelled
      modifies this
      ensures Valid() && view == P.TryAcquire(old(view), w) && acquired == (old(view).permits > 0)
      ensures w in table && w !in waiters && (!acquired ==> !table[w].completed)
    {
      hide Rep;
      waiters := PruneInactive(table, waiters, view.queue, view.granted, view.cancelled);
      acquired := permits > 0;
      if acquired {
        permits := permits - 1;
        view := P.Grant(view, w);
      }
      Create(table, waiters, view.queue, old(view).granted, view.cancelled, w, acquired);
      table := table[w := NEW_WAITER.(completed := acquired)];
    }

    /** `await_suspend` up to the push; a request that is queued still has to make its last check. */
    method AcquireSuspend(w: Id, stop: bool) returns (queued: bool)
      requires Valid() && w in table && w !in waiters && !table[w].completed
      modifies this
      ensures Valid() && view == P.Suspend(old(view), w, stop)
      ensures queued == (!stop && old(view).permits == 0)
    {
      hide Rep;
      if stop {
        StopEarly(table, waiters, view.queue, view.granted, view.cancelled, w);
        table := table[w := table[w].(completed := true, payload := true)];
        view := P.Suspend(view, w, stop);
        return false;
      }
      waiters := PruneInactive(table, waiters, view.queue, view.granted, view.cancelled);
      queued := permits <= 0;
      if !queued {
        GrantLate(table, waiters, view.queue, view.granted, view.cancelled, w);
        permits := permits - 1;
        table := table[w := table[w].(suspended := true, completed := true)];
      } else {
        Enqueue(table, waiters, view.queue, view.granted, view.cancelled, w);
        table := table[w := table[w].(suspended := true)];
        waiters := waiters + [w];
      }
      view := P.Suspend(view, w, stop);
    }

    /** The last lock of `await_suspend`: a request that was ended since the push does not suspend. */
    method CheckSuspend(w: Id) returns (suspends: bool)
      requires Valid() && w in table
      ensures suspends == (w !in view.granted && w !in view.cancelled)
    {
      suspends := !table[w].completed;
    }

    method TryAcquire(ghost w: Id) returns (acquired: bool)
      requires Valid() && w !in table
      modifies this
      ensures Valid() && view == P.TryAcquire(old(view), w) && acquired == (old(view).permits > 0)
    {
      hide Rep;
      waiters := PruneInactive(table, waiters, view.queue, view.granted, view.cancelled);
      if permits <= 0 {
        return false;
      }
      GrantForeign(table, waiters, view.queue, view.granted, view.cancelled, w);
      permits := permits - 1;
      view := P.Grant(view, w);
      return true;
    }

    /** `ready`: the waiters to resume, in order. */
    method Release(count: int) returns (ok: bool, ready: seq<Id>)
      requires Valid()
      modifies this
      ensures Valid() && ok == (count > 0)
      ensures !ok ==> view == old(view) && ready == []
      ensures permits == old(permits) + (if ok then count - |ready| else 0)
      ensures ok ==> view == P.Release(old(view), count) && ready == old(view).queue[..Min(count, |old(view).queue|)]
    {
      hide Rep;
      ready := [];
      if count <= 0 {
        return false, [];
      }
      var left := count;
      waiters := PruneInactive(table, waiters, view.queue, view.granted, view.cancelled);
      ghost var queue, start, granted := view.queue, view, view.granted;
      while left > 0 && waiters != []
        invariant 0 <= left <= count && |ready| == count - left <= |start.queue|
        invariant queue == start.queue[|ready|..] && ready == start.queue[..|ready|]
        invariant Rep(table, waiters, queue, granted, start.cancelled) && granted == start.granted + ready
        invariant waiters == [] <==> queue == []
        invariant waiters != [] ==> waiters[0] == queue[0]
        invariant permits == old(permits) && view == start && AllSuspended(table, waiters)
        decreases left
      {
        var w: Id;
        w, table, waiters := GrantNext(table, waiters, queue, granted, start.cancelled);
        ready, queue, granted, left := ready + [w], queue[1..], granted + [w], left - 1;
      }
      permits := permits + left;
      view := P.Release(view, count);
      return true, ready;
    }

    /** `resume`: the waiter had suspended and must be resumed. */
    method CancelWaiter(w: Id) returns (resume: bool)
      requires Valid() && w in table && (table[w].completed || w in waiters)
      modifies this
      ensures Valid() && view == P.Cancel(old(view), w) && resume == (w in old(view).queue)
    {
      hide Rep;
      Status(table, waiters, view.queue, view.granted, view.cancelled, w);
      if !table[w].active || table[w].completed {
        return false;
      }
      CancelInPlace(table, waiters, view.queue, view.granted, view.cancelled, w);
      view := P.Cancel(view, w);
      resume := table[w].suspended;
      table := table[w := Waiter(false, true, table[w].suspended, true)];
      WithoutMembers(old(view).queue, w);
    }
  }

  class AsyncMutex {
    var locked: bool
    var waiters: seq<Id>
    var table: SyncTable
    ghost var view: P.Permits

    ghost predicate Valid()
      reads this
    {
      && view.permits == (if locked then 0 else 1) && view.initial == 1
      && Rep(table, waiters, view.queue, view.granted, view.cancelled)
      && (!locked ==> view.queue == []) && AllSuspended(table, waiters)
    }

    constructor ()
      ensures Valid() && view == P.Init(1)
    {
      locked, waiters, table := false, [], map[];
      view := P.Init(1);
    }

    method LockReady(w: Id) returns (acquired: bool)
      requires Valid() && w !in table && w !in view.granted && w !in view.cancelled
      modifies this
      ensures Valid() && view == P.TryAcquire(old(view), w) && acquired == !old(locked)
      ensures w in table && w !in waiters && (!acquired ==> !table[w].completed)
    {
      hide Rep;
      waiters := PruneInactive(table, waiters, view.queue, view.granted, view.cancelled);
      acquired := !locked && waiters == [];
      if acquired {
        locked := true;
        view := P.Grant(view, w);
      }
      Create(table, waiters, view.queue, old(view).granted, view.cancelled, w, acquired);
      table := table[w := NEW_WAITER.(completed := acquired)];
    }

    /** `await_suspend` up to the push; a request that is queued still has to make its last check. */
    method LockSuspend(w: Id, stop: bool) returns (queued: bool)
      requires Valid() && w in table && w !in waiters && !table[w].completed
      modifies this
      ensures Valid() && view == P.Suspend(old(view), w, stop)
      ensures queued == (!stop && old(locked))
    {
      hide Rep;
      if stop {
        StopEarly(table, waiters, view.queue, view.granted, view.cancelled, w);
        table := table[w := table[w].(completed := true, payload := true)];
        view := P.Suspend(view, w, stop);
        return false;
      }
      waiters := PruneInactive(table, waiters, view.queue, view.granted, view.cancelled);
      queued := locked || waiters != [];
      if !queued {
        GrantLate(table, waiters, view.queue, view.granted, view.cancelled, w);
        locked := true;
        table := table[w := table[w].(suspended := true, completed := true)];
      } else {
        Enqueue(table, waiters, view.queue, view.granted, view.cancelled, w);
        table := table[w := table[w].(suspended := true)];
        waiters := waiters + [w];
      }
      view := P.Suspend(view, w, stop);
    }

    /** The last lock of `await_suspend`: a request that was ended since the push does not suspend. */
    method CheckSuspend(w: Id) returns (suspends: bool)
      requires Valid() && w in table
      ensures suspends == (w !in view.granted && w !in view.cancelled)
    {
      suspends := !table[w].completed;
    }

    method TryLock(ghost w: Id) returns (acquired: bool)
      requires Valid() && w !in table
      modifies this
      ensures Valid() && view == P.TryAcquire(old(view), w) && acquired == !old(locked)
    {
      hide Rep;
      waiters := PruneInactive(table, waiters, view.queue, view.granted, view.cancelled);
      if locked || waiters != [] {
        return false;
      }
      GrantForeign(table, waiters, view.queue, view.granted, view.cancelled, w);
      locked := true;
      view := P.Grant(view, w);
      return true;
    }

    /** Fails on an unlocked mutex; otherwise the lock passes to `next`, which must be resumed, or becomes free. */
    method Unlock() returns (ok: bool, next: Option<Id>)
      requires Valid()
      modifies this
      ensures Valid() && ok == old(locked)
      ensures !ok ==> view == old(view) && next == None
      ensures ok ==> view == P.Release(old(view), 1)
      ensures ok ==> next == if old(view).queue == [] then None else Some(old(view).queue[0])
      ensures ok ==> locked == next.Some?
    {
      hide Rep;
      if !locked {
        return false, None;
      }
      view := P.Release(view, 1);
      waiters := PruneInactive(table, waiters, old(view).queue, old(view).granted, view.cancelled);
      if waiters == [] {
        locked := false;
        assert view.granted == old(view).granted;
        return true, None;
      }
      var w := waiters[0];
      assert old(view).queue[..1] == [w];
      GrantFront(table, waiters, old(view).queue, old(view).granted, view.cancelled, w);
      waiters := waiters[1..];
      table := table[w := Waiter(false, true, table[w].suspended, false)];
      return true, Some(w);
    }

    method CancelWaiter(w: Id) returns (resume: bool)
      requires Valid() && w in table && (table[w].completed || w in waiters)
      modifies this
      ensures Valid() && view == P.Cancel(old(view), w) && resume == (w in old(view).queue)
    {
      hide Rep;
      Status(table, waiters, view.queue, view.granted, view.cancelled, w);
      if !table[w].active || table[w].completed {
        return false;
      }
      CancelInPlace(table, waiters, view.queue, view.granted, view.cancelled, w);
      view := P.Cancel(view, w);
      resume := table[w].suspended;
      table := table[w := Waiter(false, true, table[w].suspended, true)];
      WithoutMembers(old(view).queue, w);
    }
  }
}
