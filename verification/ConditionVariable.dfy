/** `async_condition_variable` over `async_mutex`.  A notification is a permit that is never stored: `notify_one`
    releases one permit if somebody waits, `notify_all` as many as wait. */
module ConditionVariable {
  import opened Waiters
  import opened Counting
  import opened AsyncSync
  import P = PermitSpec

  class AsyncConditionVariable {
    var waiters: seq<Id>
    var table: SyncTable
    ghost var view: P.Permits

    ghost predicate Valid()
      reads this
    {
      view.permits == 0 && Rep(table, waiters, view.queue, view.granted, view.cancelled)
    }

    constructor ()
      ensures Valid() && view == P.Init(0)
    {
      waiters, table := [], map[];
      view := P.Init(0);
    }

    /** The first step of `wait`, taken with the mutex still held. */
    method Register(w: Id)
      requires Valid() && w !in table && w !in view.granted && w !in view.cancelled
      modifies this
      ensures Valid() && view == P.Suspend(old(view), w, false) && w in table && w in waiters
    {
      hide Rep;
      Create(table, waiters, view.queue, view.granted, view.cancelled, w, false);
      table := table[w := NEW_WAITER];
      Push(table, waiters, view.queue, view.granted, view.cancelled, w);
      waiters := waiters + [w];
      view := P.Suspend(view, w, false);
    }

    /** `wait` up to its suspension: register, then unlock.  An unlocked mutex throws, and the waiter stays queued. */
    method BeginWait(mutex: AsyncMutex, w: Id) returns (ok: bool, next: Option<Id>)
      requires Valid() && mutex.Valid() && w !in table && w !in view.granted && w !in view.cancelled
      modifies this, mutex
      ensures Valid() && mutex.Valid() && view == P.Suspend(old(view), w, false)
      ensures ok == old(mutex.locked)
      ensures mutex.view == if ok then P.Release(old(mutex.view), 1) else old(mutex.view)
      ensures w in view.queue && view.queue[|view.queue| - 1] == w
      ensures next == if ok && old(mutex.view).queue != [] then Some(old(mutex.view).queue[0]) else None
    {
      Register(w);
      ok, next := mutex.Unlock();
    }

    /** `await_ready` after the mutex was released. */
    method AwaitReady(w: Id) returns (ready: bool)
      requires Valid() && w in table
      ensures ready == (w in view.granted || w in view.cancelled)
    {
      ready := table[w].completed;
    }

    /** `await_suspend` stores the continuation before it takes the lock. */
    method StoreContinuation(w: Id)
      requires Valid() && w in table
      modifies `table
      ensures Valid() && table == old(table)[w := old(table[w]).(suspended := true)]
    {
      LiveFrame(table, waiters, w, table[w].(suspended := true));
      table := table[w := table[w].(suspended := true)];
    }

    /** The lock of `await_suspend`: a waiter that was ended in the meantime does not suspend. */
    method CheckSuspend(w: Id) returns (suspends: bool)
      requires Valid() && w in table
      ensures suspends == (w !in view.granted && w !in view.cancelled)
    {
      suspends := !table[w].completed;
    }

    method NotifyOne() returns (ready: Option<Id>)
      requires Valid()
      modifies this
      ensures Valid() && view == P.Release(old(view), Min(1, |old(view).queue|))
      ensures ready == if old(view).queue == [] then None else Some(old(view).queue[0])
    {
      hide Rep;
      waiters := PruneInactive(table, waiters, view.queue, view.granted, view.cancelled);
      view := P.Release(view, Min(1, |view.queue|));
      if waiters == [] {
        assert view.granted == old(view).granted;
        return None;
      }
      var w := waiters[0];
      assert old(view).queue[..1] == [w];
      GrantFront(table, waiters, old(view).queue, old(view).granted, view.cancelled, w);
      waiters := waiters[1..];
      table := table[w := Waiter(false, true, table[w].suspended, false)];
      return Some(w);
    }

    /** Completes exactly the waiters active at the call, in order. */
    method NotifyAll() returns (ready: seq<Id>)
      requires Valid()
      modifies this
      ensures Valid() && view == P.Release(old(view), |old(view).queue|)
      ensures view.queue == [] && ready == old(view).queue
    {
      hide Rep, P.Release, AllSuspended;
      P.ReleaseAll(view);
      ready := [];
      ghost var queue, start, granted := view.queue, view, view.granted;
      waiters := PruneInactive(table, waiters, view.queue, view.granted, view.cancelled);
      while waiters != []
        invariant ready + queue == start.queue
        invariant Rep(table, waiters, queue, granted, start.cancelled) && granted == start.granted + ready
        invariant waiters == [] <==> queue == []
        invariant waiters != [] ==> waiters[0] == queue[0]
        invariant view == start
        decreases |queue|
      {
        var w: Id;
        w, table, waiters := GrantNext(table, waiters, queue, granted, start.cancelled);
        ready, queue, granted := ready + [w], queue[1..], granted + [w];
      }
      assert ready == start.queue;
      view := P.Release(view, |view.queue|);
    }

    method CancelWaiter(w: Id) returns (resume: bool)
      requires Valid() && w in table && (table[w].completed || w in waiters)
      modifies this
      ensures Valid() && view == P.Cancel(old(view), w)
      ensures resume == (w in old(view).queue && old(table[w].suspended))
    {
      hide Rep;
      Status(table, waiters, view.queue, view.granted, view.cancelled, w);
      if !table[w].active || table[w].completed {
        return false;
      }
      CancelInPlace(table, waiters, view.queue, view.granted, view.cancelled, w);
      view := P.Cancel(view, w);
      resume := table[w].suspended;
      table := table[w := Waiter(false, true, table[w].suspended, true)];
    }
  }

  lemma Push(table: SyncTable, deque: seq<Id>, queue: seq<Id>, granted: seq<Id>, cancelled: set<Id>, w: Id)
    requires Rep(table, deque, queue, granted, cancelled)
    requires w in table && w !in deque && table[w].active && !table[w].completed
    ensures Rep(table, deque + [w], queue + [w], granted, cancelled)
  {
    LiveAppend(table, deque, w);
  }

  /** `n` notifications, one after the other. */
  ghost function NotifyTimes(s: P.Permits, n: nat): P.Permits
    decreases n
  {
    if n == 0 then s else NotifyTimes(P.Release(s, Min(1, |s.queue|)), n - 1)
  }

  lemma {:induction false} NotifyServes(s: P.Permits, n: nat)
    requires n <= |s.queue|
    ensures NotifyTimes(s, n) ==
            s.(queue := s.queue[n..], granted := s.granted + s.queue[..n], released := s.released + n)
    decreases n
  {
    if n == 0 {
      assert s.queue[0..] == s.queue && s.granted + s.queue[..0] == s.granted;
    } else {
      var t := P.Release(s, 1);
      assert t.queue == s.queue[1..] && t.granted == s.granted + s.queue[..1] && t.permits == s.permits;
      NotifyServes(t, n - 1);
      assert s.queue[1..][n - 1..] == s.queue[n..];
      assert (s.granted + s.queue[..1]) + s.queue[1..][..n - 1] == s.granted + s.queue[..n];
    }
  }

  /** A waiter `w` that `BeginWait` left behind takes its turn like any other: after those before it, and before every
      later one, here `behind`, it uses up a notification that nobody then sees. */
  lemma AbandonedTakesNotify(s: P.Permits, w: Id, behind: seq<Id>)
    requires s.permits == 0
    ensures var t := P.Suspend(s, w, false); var all := t.(queue := t.queue + behind);
            var u := NotifyTimes(all, |s.queue| + 1);
            u.granted == s.granted + s.queue + [w] && u.queue == behind
  {
    var all := P.Suspend(s, w, false).(queue := s.queue + [w] + behind);
    NotifyServes(all, |s.queue| + 1);
    assert all.queue[..|s.queue| + 1] == s.queue + [w] && all.queue[|s.queue| + 1..] == behind;
  }

  // ---------------------------------------------------------------- the protocol of wait

  /** Where a call of `wait` stands.  `Registered(h)`: queued at the condition variable, the mutex still held as
      request `h`; `Released`: the mutex given up; `Relocking`: notified or cancelled, locking again. */
  datatype Phase = Registered(holder: Id) | Released | Relocking | Returned

  datatype World = World(lock: P.Lock, cv: P.Permits, phase: map<Id, Phase>)

  /** A waiter's id also names its request to lock again. */
  datatype Event =
    | Other(step: P.LockEvent)      // another thread, or a returned waiter, uses the mutex
    | Enter(id: Id, holder: Id)     // wait: register
    | Leave(id: Id)                 // wait: unlock the mutex
    | NotifyOne
    | NotifyAll
    | Stop(id: Id)                  // the stop callback
    | Relock(id: Id)                // wait: first attempt of lock, without a stop token
    | RelockWait(id: Id)            // wait: second attempt
    | Return(id: Id)                // wait: lock has completed

  ghost predicate Enabled(s: World, e: Event) {
    match e
    case Other(Ask(r)) => P.LockEnabled(s.lock, e.step) && r.id !in s.phase
    case Other(Unlock(h)) =>
      && h in s.lock.holding && (forall w :: w in s.phase ==> s.phase[w] != Registered(h))
      && (h in s.phase ==> s.phase[h] == Returned)
    case Enter(w, h) =>
      && w !in s.phase && P.Unused(s.cv, w) && P.Unused(s.lock.sem, w) && h in s.lock.holding
      && (forall v :: v in s.phase ==> s.phase[v] != Registered(h)) && (h in s.phase ==> s.phase[h] == Returned)
    case Leave(w) => w in s.phase && s.phase[w].Registered?
    case Relock(w) => w in s.phase && s.phase[w] == Released && (w in s.cv.granted || w in s.cv.cancelled)
    case RelockWait(w) => w in s.phase && s.phase[w] == Relocking && P.Unused(s.lock.sem, w)
    case Return(w) =>
      w in s.phase && s.phase[w] == Relocking && (w in s.lock.sem.granted || w in s.lock.sem.cancelled)
    case _ => true
  }

  ghost function Apply(s: World, e: Event): World
    requires Enabled(s, e)
  {
    match e
    case Other(step) => s.(lock := P.LockApply(s.lock, step))
    case Enter(w, h) => s.(cv := P.Suspend(s.cv, w, false), phase := s.phase[w := Registered(h)])
    case Leave(w) =>
      s.(lock := P.LockApply(s.lock, P.Unlock(s.phase[w].holder)), phase := s.phase[w := Released])
    case NotifyOne => s.(cv := P.Release(s.cv, Min(1, |s.cv.queue|)))
    case NotifyAll => s.(cv := P.Release(s.cv, |s.cv.queue|))
    case Stop(w) => s.(cv := P.Cancel(s.cv, w))
    case Relock(w) => s.(lock := P.LockApply(s.lock, P.Ask(P.Try(w))), phase := s.phase[w := Relocking])
    case RelockWait(w) => s.(lock := P.LockApply(s.lock, P.Ask(P.Wait(w, false))))
    case Return(w) => s.(phase := s.phase[w := Returned])
  }

  ghost predicate Legal(s: World, es: seq<Event>)
    decreases |es|
  {
    es != [] ==> Enabled(s, es[0]) && Legal(Apply(s, es[0]), es[1..])
  }

  ghost function Run(s: World, es: seq<Event>): World
    requires Legal(s, es)
    decreases |es|
  {
    if es == [] then s else Run(Apply(s, es[0]), es[1..])
  }

  /** The waiter is where its phase says, at the condition variable and at the mutex. */
  ghost predicate Placed(s: World, w: Id)
    requires w in s.phase
  {
    match s.phase[w]
    case Registered(h) =>
      AtCv(s, w) && P.Unused(s.lock.sem, w) && s.lock.holding == {h} && (h in s.phase ==> s.phase[h] == Returned)
    case Released => AtCv(s, w) && P.Unused(s.lock.sem, w)
    case Relocking => Ended(s, w) && (P.Unused(s.lock.sem, w) || w in s.lock.sem.queue || w in s.lock.holding)
    case Returned => Ended(s, w) && !P.Unused(s.lock.sem, w)
  }

  ghost predicate AtCv(s: World, w: Id) {
    w in s.cv.queue || Ended(s, w)
  }

  ghost predicate Ended(s: World, w: Id) {
    w in s.cv.granted || w in s.cv.cancelled
  }

  ghost predicate Inv(s: World) {
    && P.Exclusive(s.lock) && P.Inv(s.cv) && s.cv.permits == 0
    && (forall w :: w in s.phase ==> Placed(s, w))
    && (forall w :: w in s.phase ==> w !in s.lock.sem.cancelled)
    && (forall v, w :: v in s.phase && w in s.phase && s.phase[v].Registered? && s.phase[w].Registered? ==> v == w)
  }

  /** What a step of the mutex by someone else leaves alone. */
  lemma OtherStep(l: P.Lock, e: P.LockEvent, w: Id)
    requires P.Exclusive(l) && P.LockEnabled(l, e)
    requires e.Ask? ==> e.request.id != w
    ensures var t := P.LockApply(l, e);
            && (P.Unused(l.sem, w) ==> P.Unused(t.sem, w)) && (!P.Unused(l.sem, w) ==> !P.Unused(t.sem, w))
            && (w in l.sem.queue ==> w in t.sem.queue || w in t.holding)
            && (w in l.holding && e != P.Unlock(w) ==> w in t.holding)
            && (w !in l.sem.cancelled ==> w !in t.sem.cancelled)
  {
    P.OneOutcome(l.sem);
    match e {
      case Ask(Stop(v)) => WithoutMembers(l.sem.queue, v);
      case Ask(_) =>
      case Unlock(h) =>
        if l.sem.queue != [] {
          P.UnlockHandsOver(l, h);
          assert l.sem.queue == [l.sem.queue[0]] + l.sem.queue[1..];
        }
    }
  }

  /** The mutex request a wait makes for itself: granted at once, queued, or, in the first attempt, undecided. */
  lemma OwnStep(l: P.Lock, r: P.Event, w: Id)
    requires P.Exclusive(l) && P.Unused(l.sem, w) && (r == P.Try(w) || r == P.Wait(w, false))
    ensures var t := P.LockApply(l, P.Ask(r));
            && t.sem.cancelled == l.sem.cancelled
            && (P.Unused(t.sem, w) || w in t.sem.queue || w in t.holding)
            && (r.Wait? ==> !P.Unused(t.sem, w))
            && (l.sem.permits == 0 ==> t.holding == l.holding)
  {
    P.OneOutcome(l.sem);
    if l.sem.permits > 0 {
      assert w in P.Apply(l.sem, r).granted && w !in l.sem.granted;
    } else {
      assert P.Apply(l.sem, r).granted == l.sem.granted;
    }
  }

  /** A notification or cancellation leaves every waiter queued or ended, and ended ones ended. */
  lemma CvStep(s: P.Permits, e: P.Event, w: Id)
    requires P.Inv(s) && (e.GiveBack? || e.Stop?)
    ensures var t := P.Apply(s, e);
            && (w in s.queue ==> w in t.queue || w in t.granted || w in t.cancelled)
            && (w in s.granted ==> w in t.granted) && (w in s.cancelled ==> w in t.cancelled)
  {
    match e {
      case GiveBack(n) =>
        var k := Min(n, |s.queue|);
        assert s.queue == s.queue[..k] + s.queue[k..];
      case Stop(v) => WithoutMembers(s.queue, v);
    }
  }

  lemma EnterKeeps(s: World, w: Id, h: Id)
    requires Inv(s) && Enabled(s, Enter(w, h))
    ensures Inv(Apply(s, Enter(w, h)))
  {
    hide P.Exclusive, P.Inv;
    var t := Apply(s, Enter(w, h));
    P.ApplyKeeps(s.cv, P.Wait(w, false));
    HolderIsOnly(s.lock, h);
    assert t.cv.queue == s.cv.queue + [w] && w != h;
    assert Placed(t, w);
    forall v | v in s.phase ensures Placed(t, v) {
      assert Placed(s, v);
    }
    forall v | v in s.phase ensures !s.phase[v].Registered? {
      assert Placed(s, v);
    }
  }

  lemma HolderIsOnly(l: P.Lock, h: Id)
    requires P.Exclusive(l) && h in l.holding
    ensures l.holding == {h} && l.sem.permits == 0 && !P.Unused(l.sem, h)
  {
    P.OneOutcome(l.sem);
  }

  lemma CvStepKeeps(s: World, step: P.Event)
    requires Inv(s)
    requires (step.GiveBack? && step.count <= |s.cv.queue|) || step.Stop?
    ensures Inv(s.(cv := P.Apply(s.cv, step)))
  {
    var t := s.(cv := P.Apply(s.cv, step));
    CvStepInv(s.cv, step);
    forall w | w in t.phase ensures Placed(t, w) {
      hide P.Apply, P.Exclusive, P.Inv;
      assert Placed(s, w);
      CvStep(s.cv, step, w);
    }
  }

  lemma CvStepInv(s: P.Permits, step: P.Event)
    requires P.Inv(s) && s.permits == 0
    requires (step.GiveBack? && step.count <= |s.queue|) || step.Stop?
    ensures P.Inv(P.Apply(s, step)) && P.Apply(s, step).permits == 0
  {
    if step == P.GiveBack(0) {
      assert P.Apply(s, step) == s;
    } else {
      P.ApplyKeeps(s, step);
    }
  }

  lemma OtherKeeps(s: World, step: P.LockEvent)
    requires Inv(s) && Enabled(s, Other(step))
    ensures Inv(Apply(s, Other(step)))
  {
    var t := Apply(s, Other(step));
    P.LockApplyKeeps(s.lock, step);
    hide P.Exclusive, P.Inv;
    forall w | w in t.phase ensures Placed(t, w) && w !in t.lock.sem.cancelled {
      assert Placed(s, w);
      OtherStep(s.lock, step, w);
      if s.phase[w].Registered? {
        HeldStays(s.lock, step, s.phase[w].holder);
      }
    }
  }

  /** Nobody gets the lock while its holder keeps it. */
  lemma HeldStays(l: P.Lock, e: P.LockEvent, h: Id)
    requires P.Exclusive(l) && P.LockEnabled(l, e) && l.holding == {h} && e != P.Unlock(h)
    ensures P.LockApply(l, e).holding == {h}
  {
    P.OneOutcome(l.sem);
    assert l.sem.permits == 0;
    assert P.LockApply(l, e).sem.granted == l.sem.granted;
  }

  lemma LeaveKeeps(s: World, w: Id)
    requires Inv(s) && Enabled(s, Leave(w))
    ensures Inv(Apply(s, Leave(w)))
  {
    var t := Apply(s, Leave(w));
    assert Placed(s, w);
    var e := P.Unlock(s.phase[w].holder);
    P.LockApplyKeeps(s.lock, e);
    hide P.Exclusive, P.Inv;
    forall v | v in t.phase ensures Placed(t, v) && v !in t.lock.sem.cancelled {
      assert Placed(s, v);
      OtherStep(s.lock, e, v);
    }
  }

  lemma OwnKeeps(s: World, e: Event, r: P.Event)
    requires Inv(s) && Enabled(s, e)
    requires (e.Relock? && r == P.Try(e.id)) || (e.RelockWait? && r == P.Wait(e.id, false))
    ensures Inv(Apply(s, e))
  {
    var t := Apply(s, e);
    var w := e.id;
    assert Placed(s, w);
    P.LockApplyKeeps(s.lock, P.Ask(r));
    OwnStep(s.lock, r, w);
    forall v | v in t.phase ensures Placed(t, v) && v !in t.lock.sem.cancelled {
      assert Placed(s, v);
      if v != w {
        OtherStep(s.lock, P.Ask(r), v);
        if s.phase[v].Registered? {
          HeldStays(s.lock, P.Ask(r), s.phase[v].holder);
        }
      }
    }
  }

  lemma ReturnKeeps(s: World, w: Id)
    requires Inv(s) && Enabled(s, Return(w))
    ensures Inv(Apply(s, Return(w)))
  {
    var t := Apply(s, Return(w));
    P.OneOutcome(s.lock.sem);
    assert !P.Unused(s.lock.sem, w);
    hide P.Exclusive, P.Inv;
    forall v | v in t.phase ensures Placed(t, v) {
      assert Placed(s, v);
    }
  }

  lemma ApplyKeeps(s: World, e: Event)
    requires Inv(s) && Enabled(s, e)
    ensures Inv(Apply(s, e))
  {
    match e {
      case Other(step) => OtherKeeps(s, step);
      case Enter(w, h) => EnterKeeps(s, w, h);
      case Leave(w) => LeaveKeeps(s, w);
      case NotifyOne => CvStepKeeps(s, P.GiveBack(Min(1, |s.cv.queue|)));
      case NotifyAll => CvStepKeeps(s, P.GiveBack(|s.cv.queue|));
      case Stop(w) => CvStepKeeps(s, P.Stop(w));
      case Relock(w) => OwnKeeps(s, e, P.Try(w));
      case RelockWait(w) => OwnKeeps(s, e, P.Wait(w, false));
      case Return(w) => ReturnKeeps(s, w);
    }
  }

  /** Mutual exclusion and the place of every waiter, over every run. */
  lemma {:induction false} RunsKeepInv(s: World, es: seq<Event>)
    requires Inv(s) && Legal(s, es)
    ensures Inv(Run(s, es))
    decreases |es|
  {
    if es == [] {
    } else {
      ApplyKeeps(s, es[0]);
      RunsKeepInv(Apply(s, es[0]), es[1..]);
    }
  }

  const START: World := World(P.Lock(P.Init(1), {}), P.Init(0), map[])

  /** At every moment of every run: the mutex has at most one holder, a waiter that has registered but not yet given up
      the mutex runs under it, one that gave it up is queued or has ended, and none is both notified and cancelled. */
  lemma WaitsOverRuns(es: seq<Event>, w: Id)
    requires Legal(START, es) && w in Run(START, es).phase
    ensures var s := Run(START, es);
            && |s.lock.holding| <= 1
            && (s.phase[w].Registered? ==> s.lock.holding == {s.phase[w].holder})
            && (w in s.cv.queue || w in s.cv.granted || w in s.cv.cancelled)
            && !(w in s.cv.granted && w in s.cv.cancelled)
            && (s.phase[w].Relocking? || s.phase[w].Returned? ==> w !in s.cv.queue)
  {
    RunsKeepInv(START, es);
    var s := Run(START, es);
    assert Placed(s, w);
    P.OneOutcome(s.cv);
    P.OneOutcome(s.lock.sem);
  }

  /** Giving up the mutex does give it up: to its oldest waiter, or to nobody. */
  lemma LeaveGivesUpMutex(s: World, w: Id)
    requires Inv(s) && Enabled(s, Leave(w))
    ensures var h, t := s.phase[w].holder, Apply(s, Leave(w));
            && h !in t.lock.holding && t.phase[w] == Released
            && (if s.lock.sem.queue == [] then t.lock.holding == {} else t.lock.holding == {s.lock.sem.queue[0]})
  {
    assert Placed(s, w);
    P.UnlockHandsOver(s.lock, s.phase[w].holder);
    P.OneOutcome(s.lock.sem);
  }

  /** A stop ends a wait that has not been notified, and no notification is spent on it. */
  lemma StopEndsWait(s: World, w: Id)
    requires Inv(s) && w in s.cv.queue
    ensures var t := Apply(s, Stop(w));
            w in t.cv.cancelled && w !in t.cv.queue && t.cv.granted == s.cv.granted && t.lock == s.lock
  {
    P.OneOutcome(s.cv);
    WithoutMembers(s.cv.queue, w);
  }

  /** A wait that has ended asks for the mutex again: it gets a free one, else it queues behind those that wait. */
  lemma EndedWaitRelocks(s: World, w: Id)
    requires Inv(s) && Enabled(s, Relock(w))
    ensures var t := Apply(s, Relock(w));
            && t.phase[w] == Relocking
            && (s.lock.holding == {} ==> t.lock.holding == {w} && Enabled(t, Return(w)))
            && (s.lock.holding != {} ==>
                  && Enabled(t, RelockWait(w))
                  && Apply(t, RelockWait(w)).lock.sem.queue == s.lock.sem.queue + [w])
  {
    assert Placed(s, w);
    P.OneOutcome(s.lock.sem);
  }

  /** `wait` comes back, normally or by throwing, only with the mutex held by its own request; it throws exactly if
      it was cancelled, and then no notification was spent on it. */
  lemma WaitReturnsHolding(s: World, w: Id)
    requires Inv(s) && Enabled(s, Return(w))
    ensures s.lock.holding == {w}
    ensures w in s.cv.cancelled <==> w !in s.cv.granted
    ensures var t := Apply(s, Return(w));
            t.phase[w] == Returned && t.lock == s.lock && t.cv == s.cv && Enabled(t, Other(P.Unlock(w)))
  {
    assert Placed(s, w);
    P.OneOutcome(s.lock.sem);
    P.OneOutcome(s.cv);
  }

  /** Between registering and unlocking nobody else holds the mutex, so whoever notifies under the mutex afterwards
      finds the waiter queued, unless it has been notified or cancelled already. */
  lemma NoLostNotify(s: World, w: Id, k: Id)
    requires Inv(s) && w in s.phase && k in s.lock.holding
    requires s.phase[w] != Registered(k) && w !in s.cv.granted && w !in s.cv.cancelled
    ensures s.phase[w] == Released && w in s.cv.queue
    ensures w in Apply(s, NotifyAll).cv.granted
    ensures s.cv.queue[0] == w ==> w in Apply(s, NotifyOne).cv.granted
  {
    assert Placed(s, w);
    assert s.cv.queue[..|s.cv.queue|] == s.cv.queue;
  }
}
