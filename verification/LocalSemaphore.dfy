/** `local_async_semaphore`: single-threaded, and `release` resumes each granted coroutine inline, in the middle of its
    loop.  The resumed coroutine may acquire and release again before it gives control back, so releases nest.

    A coroutine is what it still does with the semaphore, a finite script; a suspended coroutine is the script stored
    with its waiter.  `Release` and `RunScript` call each other the way the inline resumption does. */
module LocalSemaphore {
  import opened Waiters
  import opened Counting
  import opened AsyncSync
  import opened InlineMachine
  import P = PermitSpec

  function Work(ops: seq<Op>): nat {
    if ops == [] then 0 else OpWork(ops[0]) + Work(ops[1..])
  }

  function OpWork(op: Op): nat {
    match op
    case Acquire(_, onCancel) => 1 + Work(onCancel)
    case TryAcquire(onFail) => 1 + Work(onFail)
    case Release(_, onError) => 1 + Work(onError)
    case Available(_, otherwise) => 1 + Work(otherwise)
    case Spawn(script) => 1 + Work(script)
  }

  function FrameWork(f: Frame): nat {
    Work(f.granted) + Work(f.cancelled)
  }

  /** The work stored with the suspended coroutines of a queue. */
  ghost function Pool(queue: seq<Id>, frames: map<Id, Frame>): nat {
    if queue == [] then 0
    else (if queue[0] in frames then FrameWork(frames[queue[0]]) else 0) + Pool(queue[1..], frames)
  }

  function Sum(counts: seq<nat>): nat {
    if counts == [] then 0 else counts[0] + Sum(counts[1..])
  }

  lemma {:induction false} SumAppend(a: seq<nat>, n: nat)
    ensures Sum(a + [n]) == Sum(a) + n
  {
    if a == [] {
      assert a + [n] == [n];
    } else {
      assert (a + [n])[0] == a[0] && (a + [n])[1..] == a[1..] + [n];
      SumAppend(a[1..], n);
    }
  }

  lemma {:induction false} PoolAppend(queue: seq<Id>, w: Id, frames: map<Id, Frame>, f: Frame)
    requires w !in queue
    ensures Pool(queue + [w], frames[w := f]) == Pool(queue, frames) + FrameWork(f)
  {
    if queue == [] {
      assert queue + [w] == [w];
    } else {
      assert (queue + [w])[0] == queue[0] && (queue + [w])[1..] == queue[1..] + [w];
      PoolAppend(queue[1..], w, frames, f);
    }
  }

  lemma {:induction false} PoolWithout(queue: seq<Id>, w: Id, frames: map<Id, Frame>)
    requires NoDup(queue) && w in queue && w in frames
    ensures Pool(Without(queue, w), frames) + FrameWork(frames[w]) == Pool(queue, frames)
  {
    assert forall i :: 0 <= i < |queue| - 1 ==> queue[1..][i] == queue[i + 1];
    if queue[0] == w {
      WithoutAbsent(queue[1..], w);
    } else {
      assert NoDup(queue[1..]) && w in queue[1..];
      PoolWithout(queue[1..], w, frames);
    }
  }

  /** The invariants of the plain semaphore, with the permits that releases on the stack have yet to distribute. */
  ghost predicate Balanced(s: P.Permits, undistributed: seq<nat>) {
    && (s.permits > 0 ==> s.queue == [])
    && s.permits + Sum(undistributed) + |s.granted| == s.initial + s.released
    && P.Fifo(s)
  }

  /** What running other coroutines inline can have changed. */
  ghost predicate Onward(s: P.Permits, t: P.Permits) {
    && s.granted + s.queue <= t.granted + t.queue
    && s.granted <= t.granted && s.cancelled <= t.cancelled && s.released <= t.released && s.initial == t.initial
  }

  /** The order of grants looks only at the queue, the grants, the arrivals and the cancellations. */
  lemma SameFifo(s: P.Permits, t: P.Permits)
    requires P.Fifo(s) && s.granted + s.queue == t.granted + t.queue
    requires s.arrivals == t.arrivals && s.cancelled == t.cancelled
    ensures P.Fifo(t)
  {
  }

  lemma ArriveFifo(s: P.Permits, w: Id)
    requires P.Fifo(s) && P.Unused(s, w)
    ensures P.Fifo(P.Suspend(s, w, true)) && (s.permits == 0 ==> P.Fifo(P.Suspend(s, w, false)))
    ensures s.permits > 0 && s.queue == [] ==> P.Fifo(P.Grant(s, w))
  {
    P.ArriveKeeps(s, w);
    P.MinusForeign(s.arrivals, s.cancelled, w);
  }

  /** If the queue was emptied or `n` grants were made, the oldest `n` waiters were served. */
  lemma OldestGranted(s: P.Permits, t: P.Permits, n: nat)
    requires Onward(s, t) && (t.queue == [] || |t.granted| >= |s.granted| + n)
    ensures s.granted + s.queue[..Min(n, |s.queue|)] <= t.granted
  {
    var k := Min(n, |s.queue|);
    assert s.granted + s.queue == s.granted + s.queue[..k] + s.queue[k..];
    assert |s.granted + s.queue[..k]| <= |t.granted|;
    assert s.granted + s.queue[..k] <= t.granted + t.queue;
    assert (t.granted + t.queue)[..|t.granted|] == t.granted;
  }

  lemma BalancedAtRest(s: P.Permits)
    requires Balanced(s, [])
    ensures P.Inv(s)
  {
  }

  lemma TwoOnTop(a: Task, b: Task, stack: seq<Task>)
    ensures [a] + ([b] + stack) == [a, b] + stack
  {
  }

  /** What the machine does with the task on top. */
  lemma TopCode(m: Machine, script: seq<Op>, stack: seq<Task>)
    requires m.stack == [Code(script)] + stack
    ensures Step(m) == if script == [] then m.(stack := stack)
                       else StepOp(m.(stack := stack), script[0], script[1..])
  {
    assert m.stack[1..] == stack;
  }

  lemma TopShare(m: Machine, left: nat, stack: seq<Task>)
    requires m.stack == [Share(left)] + stack
    ensures Step(m) == StepShare(m.(stack := stack), left)
  {
    assert m.stack[1..] == stack;
  }

  class LocalSemaphore {
    var permits: int
    var waiters: seq<Id>
    var table: SyncTable
    var frames: map<Id, Frame>
    var nextId: Id
    ghost var view: P.Permits
    ghost var undistributed: seq<nat>   // one entry for each release on the stack, innermost last

    ghost predicate Valid()
      reads this
    {
      && permits == view.permits && Rep(table, waiters, view.queue, view.granted, view.cancelled)
      && Balanced(view, undistributed)
      && (forall w :: w in view.queue ==> w in frames)
      && (forall w :: w in table || w in view.arrivals || w in view.granted || w in view.cancelled ==> w < nextId)
    }

    ghost function Stored(): nat
      reads this
    {
      Pool(view.queue, frames)
    }

    constructor (initial: int)
      requires initial >= 0
      ensures Valid() && view == P.Init(initial) && undistributed == []
    {
      permits, waiters, table, frames, nextId := initial, [], map[], map[], 0;
      view, undistributed := P.Init(initial), [];
    }

    /** The state of the stack machine that has this semaphore and the tasks `stack` to go on with. */
    ghost function On(stack: seq<Task>): Machine
      reads this
    {
      Machine(view, frames, nextId, stack)
    }

    /** Runs a coroutine until it ends or suspends; called at every inline resumption and for a new coroutine.  It does
        what the stack machine does with the coroutine on top of any `stack`, in `n` steps. */
    method RunScript(script: seq<Op>, ghost stack: seq<Task>) returns (ghost n: nat)
      requires Valid()
      modifies this
      ensures Valid() && undistributed == old(undistributed) && Onward(old(view), view)
      ensures old(undistributed) == [] ==> P.Inv(view)
      ensures Stored() <= old(Stored()) + Work(script)
      ensures Steps(old(On([Code(script)] + stack)), n) == On(stack)
      decreases Stored() + Work(script), 0
    {
      hide Rep, P.Fifo, Pool, Step, Steps, Balanced;
      ghost var start := On([Code(script)] + stack);
      n := 0;
      Halted(start, 0);
      var rest := script;
      while rest != []
        invariant Steps(start, n) == On([Code(rest)] + stack)
        invariant Valid() && undistributed == old(undistributed) && Onward(old(view), view)
        invariant Stored() + Work(rest) <= old(Stored()) + Work(script)
        decreases Work(rest)
      {
        var op := rest[0];
        StepsThen(start, n, On([Code(rest)] + stack));
        TopCode(On([Code(rest)] + stack), rest, stack);
        n := n + 1;
        rest := rest[1..];
        match op {
          case TryAcquire(onFail) =>
            var got := TryAcquireNow();
            if !got {
              rest := onFail;
            }
          case Release(count, onError) =>
            ghost var more: nat;
            var ok: bool;
            TwoOnTop(Share(if count > 0 then count else 0), Code(rest), stack);
            ok, more := ReleaseMany(count, [Code(rest)] + stack);
            if !ok {
              rest := onError;
            } else {
              StepsAdd(start, n, more);
              n := n + more;
            }
          case Available(atLeast, otherwise) =>
            if permits < atLeast {
              rest := otherwise;
            }
          case Spawn(inner) =>
            TwoOnTop(Code(inner), Code(rest), stack);
            ghost var more := RunScript(inner, [Code(rest)] + stack);
            StepsAdd(start, n, more);
            n := n + more;
          case Acquire(stopped, onCancel) =>
            var outcome := AcquireOrSuspend(stopped, Frame(rest, onCancel));
            if outcome.Suspended? {
              if old(undistributed) == [] {
                BalancedAtRest(view);
              }
              return;
            }
            if outcome.StoppedEarly? {
              rest := onCancel;
            }
        }
      }
      StepsThen(start, n, On([Code([])] + stack));
      TopCode(On([Code([])] + stack), [], stack);
      n := n + 1;
      if old(undistributed) == [] {
        BalancedAtRest(view);
      }
    }

    method TryAcquireNow() returns (acquired: bool)
      requires Valid()
      modifies this
      ensures Valid() && undistributed == old(undistributed) && Onward(old(view), view)
      ensures Stored() == old(Stored()) && acquired == (old(view).permits > 0)
      ensures view == P.TryAcquire(old(view), old(nextId))
      ensures frames == old(frames) && nextId == (if acquired then old(nextId) + 1 else old(nextId))
    {
      hide Rep;
      waiters := PruneInactive(table, waiters, view.queue, view.granted, view.cancelled);
      if permits <= 0 {
        return false;
      }
      GrantForeign(table, waiters, view.queue, view.granted, view.cancelled, nextId);
      P.ArriveKeeps(view, nextId);
      permits := permits - 1;
      view := P.Grant(view, nextId);
      nextId := nextId + 1;
      return true;
    }

    /** `acquire`; on one thread nothing runs between its two attempts, so the second finds what the first found. */
    method AcquireOrSuspend(stopped: bool, frame: Frame) returns (outcome: Outcome)
      requires Valid()
      modifies this
      ensures Valid() && undistributed == old(undistributed) && Onward(old(view), view)
      ensures outcome == if old(view).permits > 0 then Acquired else if stopped then StoppedEarly else Suspended
      ensures view == if outcome.Acquired? then P.TryAcquire(old(view), old(nextId))
                      else P.Suspend(old(view), old(nextId), stopped)
      ensures Stored() == old(Stored()) + (if outcome.Suspended? then FrameWork(frame) else 0)
      ensures frames == (if outcome.Suspended? then old(frames)[old(nextId) := frame] else old(frames))
      ensures nextId == old(nextId) + 1
    {
      hide Rep, P.Fifo;
      var w := nextId;
      nextId := nextId + 1;
      waiters := PruneInactive(table, waiters, view.queue, view.granted, view.cancelled);
      ArriveFifo(view, w);
      Create(table, waiters, view.queue, view.granted, view.cancelled, w, permits > 0);
      table := table[w := NEW_WAITER.(completed := permits > 0)];
      if permits > 0 {
        permits := permits - 1;
        view := P.Grant(view, w);
        return Acquired;
      }
      if stopped {
        StopEarly(table, waiters, view.queue, view.granted, view.cancelled, w);
        table := table[w := table[w].(completed := true, payload := true)];
        view := P.Suspend(view, w, true);
        return StoppedEarly;
      }
      QueueMe(w, frame);
      return Suspended;
    }

    method QueueMe(w: Id, frame: Frame)
      requires Valid() && permits == 0 && w in table && w !in waiters && !table[w].completed
      requires P.Unused(view, w) && P.Fifo(P.Suspend(view, w, false))
      modifies `table, `frames, `waiters, `view
      ensures Valid() && view == P.Suspend(old(view), w, false)
      ensures Stored() == old(Stored()) + FrameWork(frame) && frames == old(frames)[w := frame]
    {
      hide Rep, P.Fifo;
      P.OneOutcome(view);
      PoolAppend(view.queue, w, frames, frame);
      Enqueue(table, waiters, view.queue, view.granted, view.cancelled, w);
      table := table[w := table[w].(suspended := true)];
      frames := frames[w := frame];
      waiters := waiters + [w];
      view := P.Suspend(view, w, false);
    }

    /** Pops the oldest waiter and hands it one of the permits of the innermost release. */
    method GrantOldest(ghost outer: seq<nat>, ghost left: nat) returns (script: seq<Op>)
      requires Valid() && left > 0 && undistributed == outer + [left]
      requires waiters != [] && view.queue != [] && waiters[0] == view.queue[0]
      modifies this
      ensures Valid() && undistributed == outer + [left - 1]
      ensures view == old(view).(queue := old(view).queue[1..], granted := old(view).granted + [old(view).queue[0]])
      ensures Stored() + Work(script) <= old(Stored()) && frames == old(frames) && nextId == old(nextId)
      ensures old(view).queue[0] in frames && script == frames[old(view).queue[0]].granted
    {
      hide Rep, P.Fifo;
      var w := waiters[0];
      GrantFront(table, waiters, view.queue, view.granted, view.cancelled, w);
      waiters := waiters[1..];
      table := table[w := Waiter(false, true, table[w].suspended, false)];
      view := view.(queue := view.queue[1..], granted := view.granted + [w]);
      SameFifo(old(view), view);
      SumAppend(outer, left);
      SumAppend(outer, left - 1);
      undistributed := outer + [left - 1];
      script := frames[w].granted;
    }

    /** One turn of the loop of `release`: grants the oldest waiter, runs it, and prunes. */
    method ServeOldest(ghost outer: seq<nat>, ghost left: nat, ghost stack: seq<Task>) returns (ghost n: nat)
      requires Valid() && left > 0 && undistributed == outer + [left]
      requires waiters != [] && view.queue != [] && waiters[0] == view.queue[0]
      modifies this
      ensures Valid() && undistributed == outer + [left - 1]
      ensures Onward(old(view), view) && |view.granted| > |old(view).granted|
      ensures waiters == [] <==> view.queue == []
      ensures waiters != [] ==> waiters[0] == view.queue[0]
      ensures Stored() <= old(Stored())
      ensures Steps(old(On([Share(left)] + stack)), n) == On([Share(left - 1)] + stack)
      decreases Stored(), 1
    {
      hide Rep, P.Fifo, Balanced, Min, Pool, Step, Steps;
      ghost var start := On([Share(left)] + stack);
      Halted(start, 0);
      StepsThen(start, 0, start);
      TopShare(start, left, stack);
      var script := GrantOldest(outer, left);
      assert view.granted == old(view).granted + [old(view).queue[0]];
      TwoOnTop(Code(script), Share(left - 1), stack);
      ghost var more := RunScript(script, [Share(left - 1)] + stack);
      StepsAdd(start, 1, more);
      n := 1 + more;
      waiters := PruneInactive(table, waiters, view.queue, view.granted, view.cancelled);
    }

    /** The machine in front of a release of `count` permits. */
    ghost function Sharing(count: int, stack: seq<Task>): Machine
      reads this
    {
      if count <= 0 then On(stack)
      else Machine(view.(released := view.released + count), frames, nextId, [Share(count)] + stack)
    }

    /** `release`: the loop that pops a waiter, resumes it inline, prunes, and only then counts the permit off. */
    method ReleaseMany(count: int, ghost stack: seq<Task>) returns (ok: bool, ghost n: nat)
      requires Valid()
      modifies this
      ensures Valid() && undistributed == old(undistributed) && Onward(old(view), view)
      ensures ok == (count > 0) && (!ok ==> view == old(view))
      ensures ok ==> view.released >= old(view).released + count
      ensures ok ==> old(view).granted + old(view).queue[..Min(count, |old(view).queue|)] <= view.granted
      ensures Stored() <= old(Stored())
      ensures !ok ==> frames == old(frames) && nextId == old(nextId)
      ensures ok ==> Steps(old(Sharing(count, stack)), n) == On(stack)
      decreases Stored(), 2
    {
      hide Rep, P.Fifo, Balanced, Min, Pool, Step, Steps;
      n := 0;
      if count <= 0 {
        return false, 0;
      }
      ghost var start := Sharing(count, stack);
      Halted(start, 0);
      var left := count;
      BeginRelease(count);
      while left > 0 && waiters != []
        invariant Valid() && 0 <= left <= count && undistributed == old(undistributed) + [left]
        invariant Onward(old(view), view) && view.released >= old(view).released + count
        invariant |view.granted| >= |old(view).granted| + (count - left)
        invariant waiters == [] <==> view.queue == []
        invariant waiters != [] ==> waiters[0] == view.queue[0]
        invariant Stored() <= old(Stored())
        invariant Steps(start, n) == On([Share(left)] + stack)
        decreases left
      {
        ghost var more := ServeOldest(old(undistributed), left, stack);
        StepsAdd(start, n, more);
        n := n + more;
        left := left - 1;
      }
      StepsThen(start, n, On([Share(left)] + stack));
      TopShare(On([Share(left)] + stack), left, stack);
      EndRelease(old(undistributed), left);
      OldestGranted(old(view), view, count);
      return true, n + 1;
    }

    method BeginRelease(count: nat)
      requires Valid()
      modifies `waiters, `view, `undistributed
      ensures Valid() && undistributed == old(undistributed) + [count]
      ensures view == old(view).(released := old(view).released + count)
      ensures waiters == [] <==> view.queue == []
      ensures waiters != [] ==> waiters[0] == view.queue[0]
    {
      hide Rep, P.Fifo;
      view := view.(released := view.released + count);
      undistributed := undistributed + [count];
      SumAppend(old(undistributed), count);
      SameFifo(old(view), view);
      waiters := PruneInactive(table, waiters, view.queue, view.granted, view.cancelled);
    }

    /** Adds the permits nobody waited for and leaves the loop's frame. */
    method EndRelease(ghost outer: seq<nat>, left: nat)
      requires Valid() && undistributed == outer + [left] && (left > 0 ==> view.queue == [])
      modifies `permits, `view, `undistributed
      ensures Valid() && undistributed == outer && view == old(view).(permits := old(view).permits + left)
    {
      hide Rep, P.Fifo;
      SumAppend(outer, left);
      permits := permits + left;
      view := view.(permits := view.permits + left);
      SameFifo(old(view), view);
      undistributed := outer;
    }

    /** The task a stop callback posts; it runs from the loop, with no release on the stack. */
    method CancelPosted(w: Id) returns (ghost n: nat)
      requires Valid() && undistributed == []
      requires w in table && (table[w].completed || w in waiters)
      modifies this
      ensures Valid() && undistributed == [] && P.Inv(view)
      ensures w in old(view).queue ==> w in view.cancelled && w !in view.granted
      ensures w !in old(view).queue ==> On([]) == old(On([]))
      ensures w in old(view).queue ==>
                && w in old(frames)
                && Steps(Machine(P.Cancel(old(view), w), old(frames), old(nextId), [Code(old(frames[w].cancelled))]), n)
                   == On([])
      ensures Stored() <= old(Stored())
    {
      hide Rep, Steps;
      n := 0;
      Status(table, waiters, view.queue, view.granted, view.cancelled, w);
      if !table[w].active || table[w].completed {
        return 0;
      }
      P.CancelKeepsFifo(view, w);
      P.OneOutcome(view);
      PoolWithout(view.queue, w, frames);
      WithoutMembers(view.queue, w);
      CancelInPlace(table, waiters, view.queue, view.granted, view.cancelled, w);
      table := table[w := Waiter(false, true, table[w].suspended, true)];
      view := P.Cancel(view, w);
      assert [Code(frames[w].cancelled)] + [] == [Code(frames[w].cancelled)];
      n := RunScript(frames[w].cancelled, []);
      P.OneOutcome(view);
    }
  }
}
