/** Permits handed out in FIFO order, with cancellation: the counting semaphore over a plain queue, and the mutex as
    the semaphore with one permit.  `AsyncSemaphore`, `AsyncMutex` and `LocalSemaphore` refine these functions. */
module PermitSpec {
  import opened Waiters
  import opened Counting

  datatype Permits = Permits(
    permits: nat,
    queue: seq<Id>,        // active waiters, oldest first
    granted: seq<Id>,      // requests that got a permit, in that order
    cancelled: set<Id>,    // requests that ended cancelled
    arrivals: seq<Id>,     // requests that got a permit at once or queued, in that order
    initial: nat,
    released: nat)         // permits given back so far

  function Init(initial: nat): Permits {
    Permits(initial, [], [], {}, [], initial, 0)
  }

  function Grant(s: Permits, w: Id): Permits
    requires s.permits > 0
  {
    s.(permits := s.permits - 1, granted := s.granted + [w], arrivals := s.arrivals + [w])
  }

  /** `await_ready`, `try_acquire` and `try_lock`. */
  function TryAcquire(s: Permits, w: Id): Permits {
    if s.permits > 0 then Grant(s, w) else s
  }

  /** `await_suspend`; `stop`: the stop token was already requested. */
  function Suspend(s: Permits, w: Id, stop: bool): Permits {
    if stop then s.(cancelled := s.cancelled + {w})
    else if s.permits > 0 then Grant(s, w)
    else s.(queue := s.queue + [w], arrivals := s.arrivals + [w])
  }

  /** The oldest waiters get the released permits; what is left over is added. */
  function Release(s: Permits, n: nat): Permits {
    var k := Min(n, |s.queue|);
    s.(permits := s.permits + (n - k),
       queue := s.queue[k..],
       granted := s.granted + s.queue[..k],
       released := s.released + n)
  }

  lemma ReleaseAll(s: Permits)
    ensures Release(s, |s.queue|) ==
            s.(queue := [], granted := s.granted + s.queue, released := s.released + |s.queue|)
  {
    assert s.queue[..|s.queue|] == s.queue;
  }

  ghost function Cancel(s: Permits, w: Id): Permits {
    if w in s.queue then s.(queue := Without(s.queue, w), cancelled := s.cancelled + {w}) else s
  }

  datatype Event =
    | Try(id: Id)
    | Wait(id: Id, stop: bool)
    | GiveBack(count: nat)
    | Stop(id: Id)

  predicate Unused(s: Permits, w: Id) {
    w !in s.arrivals && w !in s.cancelled
  }

  predicate Enabled(s: Permits, e: Event) {
    match e
    case Try(w) => Unused(s, w)
    case Wait(w, _) => Unused(s, w)
    case GiveBack(n) => n > 0
    case Stop(_) => true
  }

  ghost function Apply(s: Permits, e: Event): Permits {
    match e
    case Try(w) => TryAcquire(s, w)
    case Wait(w, stop) => Suspend(s, w, stop)
    case GiveBack(n) => Release(s, n)
    case Stop(w) => Cancel(s, w)
  }

  ghost predicate Legal(s: Permits, es: seq<Event>)
    decreases |es|
  {
    es != [] ==> Enabled(s, es[0]) && Legal(Apply(s, es[0]), es[1..])
  }

  ghost function Run(s: Permits, es: seq<Event>): Permits
    decreases |es|
  {
    if es == [] then s else Run(Apply(s, es[0]), es[1..])
  }

  /** `q` without the requests in `gone`. */
  ghost function Minus(q: seq<Id>, gone: set<Id>): seq<Id> {
    if q == [] then [] else if q[0] in gone then Minus(q[1..], gone) else [q[0]] + Minus(q[1..], gone)
  }

  /** Nothing is queued while a permit is free, no permit appears or vanishes, and the grants followed by the queue
      are exactly the arrivals that were not cancelled, in order of arrival. */
  ghost predicate Inv(s: Permits) {
    && (s.permits > 0 ==> s.queue == [])
    && s.permits + |s.granted| == s.initial + s.released
    && Fifo(s)
  }

  ghost predicate Fifo(s: Permits) {
    s.granted + s.queue == Minus(s.arrivals, s.cancelled) && NoDup(s.arrivals)
  }

  lemma {:induction false} MinusAppend(q: seq<Id>, w: Id, gone: set<Id>)
    ensures Minus(q + [w], gone) == Minus(q, gone) + (if w in gone then [] else [w])
  {
    if q == [] {
      assert q + [w] == [w];
    } else {
      assert (q + [w])[0] == q[0] && (q + [w])[1..] == q[1..] + [w];
      MinusAppend(q[1..], w, gone);
    }
  }

  lemma {:induction false} MinusMembers(q: seq<Id>, gone: set<Id>)
    ensures forall w :: w in Minus(q, gone) <==> w in q && w !in gone
  {
    if q == [] {
    } else {
      assert q == [q[0]] + q[1..];
      MinusMembers(q[1..], gone);
    }
  }

  lemma {:induction false} MinusNoDup(q: seq<Id>, gone: set<Id>)
    requires NoDup(q)
    ensures NoDup(Minus(q, gone))
  {
    if q == [] {
    } else {
      MinusMembers(q[1..], gone);
      assert NoDup(q[1..]);
      MinusNoDup(q[1..], gone);
      assert forall i :: 0 <= i < |q[1..]| ==> q[1..][i] == q[i + 1];
      assert q[0] !in q[1..];
    }
  }

  lemma {:induction false} MinusOneMore(q: seq<Id>, gone: set<Id>, w: Id)
    ensures Minus(q, gone + {w}) == Without(Minus(q, gone), w)
  {
    if q == [] {
    } else {
      MinusOneMore(q[1..], gone, w);
      if q[0] !in gone {
        assert Minus(q, gone)[1..] == Minus(q[1..], gone);
      }
    }
  }

  lemma {:induction false} MinusForeign(q: seq<Id>, gone: set<Id>, w: Id)
    requires w !in q
    ensures Minus(q, gone + {w}) == Minus(q, gone)
  {
    if q == [] {
    } else {
      MinusForeign(q[1..], gone, w);
    }
  }

  /** In a reachable state the granted and the queued requests are distinct, and none of them is cancelled. */
  lemma OneOutcome(s: Permits)
    requires Fifo(s)
    ensures NoDup(s.granted + s.queue) && NoDup(s.queue)
    ensures forall w :: w in s.granted + s.queue ==> w in s.arrivals && w !in s.cancelled
    ensures forall w :: w in s.queue ==> w !in s.granted
  {
    MinusNoDup(s.arrivals, s.cancelled);
    MinusMembers(s.arrivals, s.cancelled);
    var all := s.granted + s.queue;
    forall i, j | 0 <= i < j < |s.queue| ensures s.queue[i] != s.queue[j] {
      assert all[|s.granted| + i] == s.queue[i] && all[|s.granted| + j] == s.queue[j];
    }
    forall i, j | 0 <= i < |s.granted| && 0 <= j < |s.queue| ensures s.granted[i] != s.queue[j] {
      assert all[i] == s.granted[i] && all[|s.granted| + j] == s.queue[j];
    }
  }

  lemma ArriveKeeps(s: Permits, w: Id)
    requires Fifo(s) && Unused(s, w)
    ensures Minus(s.arrivals + [w], s.cancelled) == s.granted + s.queue + [w]
    ensures NoDup(s.arrivals + [w])
  {
    MinusAppend(s.arrivals, w, s.cancelled);
  }

  lemma ApplyKeeps(s: Permits, e: Event)
    requires Inv(s) && Enabled(s, e)
    ensures Inv(Apply(s, e))
  {
    match e {
      case Try(w) => ArriveKeeps(s, w);
      case Wait(w, stop) =>
        ArriveKeeps(s, w);
        MinusForeign(s.arrivals, s.cancelled, w);
      case GiveBack(n) =>
        var k := Min(n, |s.queue|);
        assert s.queue == s.queue[..k] + s.queue[k..];
      case Stop(w) =>
        CancelKeepsFifo(s, w);
    }
  }

  lemma CancelKeepsFifo(s: Permits, w: Id)
    requires Fifo(s)
    ensures Fifo(Cancel(s, w))
  {
    if w in s.queue {
      OneOutcome(s);
      MinusOneMore(s.arrivals, s.cancelled, w);
      WithoutAppend(s.granted, s.queue, w);
      WithoutAbsent(s.granted, w);
    }
  }

  /** Permit conservation and strict first-come-first-served order over every run, under any cancellations. */
  lemma {:induction false} RunsKeepInv(s: Permits, es: seq<Event>)
    requires Inv(s) && Legal(s, es)
    ensures Inv(Run(s, es))
    decreases |es|
  {
    if es == [] {
    } else {
      ApplyKeeps(s, es[0]);
      RunsKeepInv(Apply(s, es[0]), es[1..]);
    }
  }

  /** The same in full, for every run of a new semaphore. */
  lemma PermitsOverRuns(initial: nat, es: seq<Event>)
    requires Legal(Init(initial), es)
    ensures var s := Run(Init(initial), es);
            && s.permits + |s.granted| == initial + s.released
            && (s.permits > 0 ==> s.queue == [])
            && s.granted + s.queue == Minus(s.arrivals, s.cancelled)
            && NoDup(s.granted + s.queue)
            && (forall w :: w in s.granted + s.queue ==> w !in s.cancelled)
  {
    RunsKeepInv(Init(initial), es);
    OneOutcome(Run(Init(initial), es));
    InitialIsKept(Init(initial), es);
  }

  lemma {:induction false} InitialIsKept(s: Permits, es: seq<Event>)
    requires Legal(s, es)
    ensures Run(s, es).initial == s.initial
    decreases |es|
  {
    if es == [] {
    } else {
      InitialIsKept(Apply(s, es[0]), es[1..]);
    }
  }

  /** The permits given back in a run, read off its events. */
  function GivenBack(es: seq<Event>): nat {
    if es == [] then 0 else (if es[0].GiveBack? then es[0].count else 0) + GivenBack(es[1..])
  }

  /** A request arrives when it waits for a permit or finds one.  A `try_acquire` that finds none leaves no trace, and
      neither does a wait whose stop token is already requested. */
  function Arrives(s: Permits, e: Event): seq<Id> {
    match e
    case Try(w) => if s.permits > 0 then [w] else []
    case Wait(w, stop) => if stop then [] else [w]
    case _ => []
  }

  /** A request is cancelled before it waits, or while it waits. */
  function Cancels(s: Permits, e: Event): set<Id> {
    match e
    case Wait(w, stop) => if stop then {w} else {}
    case Stop(w) => if w in s.queue then {w} else {}
    case _ => {}
  }

  ghost function ArrivalsIn(s: Permits, es: seq<Event>): seq<Id>
    decreases |es|
  {
    if es == [] then [] else Arrives(s, es[0]) + ArrivalsIn(Apply(s, es[0]), es[1..])
  }

  ghost function CancelsIn(s: Permits, es: seq<Event>): set<Id>
    decreases |es|
  {
    if es == [] then {} else Cancels(s, es[0]) + CancelsIn(Apply(s, es[0]), es[1..])
  }

  lemma {:induction false} RunRecords(s: Permits, es: seq<Event>)
    requires Legal(s, es) && Inv(s)
    ensures var t := Run(s, es);
            && t.arrivals == s.arrivals + ArrivalsIn(s, es) && t.cancelled == s.cancelled + CancelsIn(s, es)
            && t.permits + |t.granted| == s.permits + |s.granted| + GivenBack(es)
    decreases |es|
  {
    hide Apply, Inv, Enabled, Arrives, Cancels;
    if es == [] {
    } else {
      ApplyKeeps(s, es[0]);
      StepRecords(s, es[0]);
      RunRecords(Apply(s, es[0]), es[1..]);
    }
  }

  lemma StepRecords(s: Permits, e: Event)
    requires Inv(s) && Enabled(s, e)
    ensures var t := Apply(s, e);
            && t.arrivals == s.arrivals + Arrives(s, e) && t.cancelled == s.cancelled + Cancels(s, e)
            && t.permits + |t.granted| == s.permits + |s.granted| + (if e.GiveBack? then e.count else 0)
  {
    hide Fifo;
  }

  /** A semaphore in closed form, for every run: of the uncancelled arrivals the first ones, as many as there have been
      permits, are granted; the others wait; the permits nobody arrived for are free. */
  lemma PermitsInClosedForm(initial: nat, es: seq<Event>)
    requires Legal(Init(initial), es)
    ensures var t, line := Run(Init(initial), es), Minus(ArrivalsIn(Init(initial), es), CancelsIn(Init(initial), es));
            var n := Min(|line|, initial + GivenBack(es));
            t.granted == line[..n] && t.queue == line[n..] && t.permits == initial + GivenBack(es) - n
  {
    RunsKeepInv(Init(initial), es);
    RunRecords(Init(initial), es);
    var s, t := Init(initial), Run(Init(initial), es);
    assert s.arrivals + ArrivalsIn(s, es) == ArrivalsIn(s, es) && s.cancelled + CancelsIn(s, es) == CancelsIn(s, es);
    assert t.granted + t.queue == Minus(t.arrivals, t.cancelled);
    assert (t.granted + t.queue)[..|t.granted|] == t.granted && (t.granted + t.queue)[|t.granted|..] == t.queue;
  }

  /** A grant and a cancellation are final, and a queued request stays queued until one of them. */
  lemma {:induction false} OutcomesAreFinal(s: Permits, es: seq<Event>)
    requires Inv(s) && Legal(s, es)
    ensures var t := Run(s, es);
            && s.granted <= t.granted && s.cancelled <= t.cancelled
            && forall w :: w in s.queue ==> w in t.queue || w in t.granted || w in t.cancelled
    decreases |es|
  {
    if es == [] {
    } else {
      var s1 := Apply(s, es[0]);
      if es[0].Stop? {
        WithoutMembers(s.queue, es[0].id);
      }
      if es[0].GiveBack? {
        var k := Min(es[0].count, |s.queue|);
        assert s.queue == s.queue[..k] + s.queue[k..];
      }
      assert forall w :: w in s.queue ==> w in s1.queue || w in s1.granted || w in s1.cancelled;
      ApplyKeeps(s, es[0]);
      OutcomesAreFinal(s1, es[1..]);
    }
  }

  // ---------------------------------------------------------------- the mutex: one permit

  /** The lock with the set of requests that hold it: granted and not yet unlocked by their owner. */
  datatype Lock = Lock(sem: Permits, holding: set<Id>)

  datatype LockEvent = Ask(request: Event) | Unlock(owner: Id)

  ghost predicate LockEnabled(l: Lock, e: LockEvent) {
    match e
    case Ask(r) => !r.GiveBack? && Enabled(l.sem, r)
    case Unlock(h) => h in l.holding
  }

  ghost function LockApply(l: Lock, e: LockEvent): Lock {
    match e
    case Ask(r) =>
      var sem := Apply(l.sem, r);
      Lock(sem, l.holding + (set w | w in sem.granted && w !in l.sem.granted))
    case Unlock(h) =>
      var sem := Release(l.sem, 1);
      Lock(sem, l.holding - {h} + (set w | w in sem.granted && w !in l.sem.granted))
  }

  ghost predicate LockLegal(l: Lock, es: seq<LockEvent>)
    decreases |es|
  {
    es != [] ==> LockEnabled(l, es[0]) && LockLegal(LockApply(l, es[0]), es[1..])
  }

  ghost function LockRun(l: Lock, es: seq<LockEvent>): Lock
    decreases |es|
  {
    if es == [] then l else LockRun(LockApply(l, es[0]), es[1..])
  }

  /** Locked exactly if there is a holder, and then it is the request granted last and no other. */
  ghost predicate Exclusive(l: Lock) {
    && Inv(l.sem) && l.sem.initial == 1 && l.sem.permits <= 1
    && (l.sem.permits == 1 ==> l.holding == {})
    && (l.sem.permits == 0 ==> l.sem.granted != [] && l.holding == {l.sem.granted[|l.sem.granted| - 1]})
  }

  lemma LockApplyKeeps(l: Lock, e: LockEvent)
    requires Exclusive(l) && LockEnabled(l, e)
    ensures Exclusive(LockApply(l, e))
  {
    var s := l.sem;
    OneOutcome(s);
    match e {
      case Ask(r) =>
        ApplyKeeps(s, r);
        OneOutcome(Apply(s, r));
      case Unlock(h) =>
        ApplyKeeps(s, GiveBack(1));
        if s.queue != [] {
          assert s.queue[..1] == [s.queue[0]] && s.queue[0] in s.queue;
        }
    }
  }

  /** Mutual exclusion over every run of lock, try_lock, unlock by the holder, and cancellation. */
  lemma {:induction false} MutualExclusion(l: Lock, es: seq<LockEvent>)
    requires Exclusive(l) && LockLegal(l, es)
    ensures Exclusive(LockRun(l, es))
    decreases |es|
  {
    if es == [] {
    } else {
      LockApplyKeeps(l, es[0]);
      MutualExclusion(LockApply(l, es[0]), es[1..]);
    }
  }

  /** A new mutex, over every run: at most one holder, nobody waiting while it is free, and the holder is the request
      granted last, which was not cancelled. */
  lemma MutexOverRuns(es: seq<LockEvent>)
    requires LockLegal(Lock(Init(1), {}), es)
    ensures var l := LockRun(Lock(Init(1), {}), es);
            && |l.holding| <= 1
            && (l.holding == {} <==> l.sem.permits == 1)
            && (l.holding == {} ==> l.sem.queue == [])
            && (forall h :: h in l.holding ==>
                  l.sem.granted != [] && h == l.sem.granted[|l.sem.granted| - 1] && h !in l.sem.cancelled)
  {
    assert Exclusive(Lock(Init(1), {}));
    MutualExclusion(Lock(Init(1), {}), es);
    OneOutcome(LockRun(Lock(Init(1), {}), es).sem);
  }

  /** Unlock hands the lock to the oldest waiter that was not cancelled, and frees it if there is none. */
  lemma UnlockHandsOver(l: Lock, h: Id)
    requires Exclusive(l) && h in l.holding
    ensures var t := LockApply(l, Unlock(h));
            if l.sem.queue == [] then t.holding == {} && t.sem.permits == 1
            else t.holding == {l.sem.queue[0]} && t.sem.permits == 0 && t.sem.queue == l.sem.queue[1..]
  {
    OneOutcome(l.sem);
    if l.sem.queue != [] {
      assert l.sem.queue[..1] == [l.sem.queue[0]] && l.sem.queue[0] in l.sem.queue;
    }
  }
}
