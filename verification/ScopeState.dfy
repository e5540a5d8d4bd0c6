/** The state a task scope and its children share, over the channel object that carries the completions.  One method
    for each region of `spawn`, `run_child`, `join` and the stop callback; each is proved to be the step of
    `TaskScope` that its name says. */
module ScopeState {
  import opened Waiters
  import opened ChannelSpec
  import ChannelRuns
  import ChannelWaiters
  import MC = MessageChannel
  import opened TaskScope

  /** The channel behind the line `s.completions`; `join` numbers its receives. */
  ghost predicate Linked<E>(c: Chan<()>, s: Scope<E>) {
    && ChannelRuns.Inv(c) && c.capacity == 0 && ChannelRuns.Abstract(c) == s.completions
    && (forall w :: w in c.known ==> w < s.receives || (w == s.receives && s.join in {Retry, JoinPc.Waiting}))
    && (s.join in {Retry, JoinPc.Waiting} ==> s.receives in c.known)
  }

  lemma EmptyChannel<E>()
    ensures Linked(ChannelSpec.Init<()>(0), TaskScope.Init<E>())
  {
    ChannelRuns.FifoConservation<()>(0, []);
  }

  /** One region of the channel and one step of the line keep in step. */
  lemma ChannelStep(c: Chan<()>, e: ChannelRuns.Event<()>)
    requires ChannelRuns.Inv(c) && ChannelRuns.Enabled(c, e)
    ensures var d := ChannelRuns.Apply(c, e);
            && ChannelRuns.Inv(d) && d.capacity == c.capacity
            && ChannelRuns.Abstract(d) == ChannelRuns.QueueStep(c.capacity, ChannelRuns.Abstract(c), e)
            && d.known == (if e.RecvStart? then c.known + {e.id} else c.known)
  {
    ChannelRuns.ApplyKeeps(c, e);
    ChannelRuns.StepRefinesQueue(c, e);
    KnownStep(c, e);
  }

  lemma KnownStep(c: Chan<()>, e: ChannelRuns.Event<()>)
    requires ChannelRuns.Inv(c) && ChannelRuns.Enabled(c, e)
    ensures ChannelRuns.Apply(c, e).known == if e.RecvStart? then c.known + {e.id} else c.known
  {
    hide ChannelRuns.ReceiversOk, ChannelRuns.SendersOk;
    if c.buffer != [] {
      match e {
        case RecvStart(w, _) =>
          ChannelRuns.PumpOnce(Finish(DropHead(c.(known := c.known + {w})), w, Got(c.buffer[0]), false));
        case RecvWait(w, _, _) => ChannelRuns.PumpOnce(Finish(DropHead(c), w, Got(c.buffer[0]), true));
        case Take => ChannelRuns.PumpOnce(DropHead(c).(delivered := c.delivered + [c.buffer[0]]));
        case _ =>
      }
    }
  }

  /** A send on an unbounded channel never has to wait. */
  lemma NeverFull(c: Chan<()>)
    requires ChannelRuns.Inv(c) && c.capacity == 0
    ensures c.closed || CanSend(c)
  {
    hide ChannelRuns.ReceiversOk, ChannelRuns.SendersOk, ChannelRuns.Conserved;
  }

  /** A token wakes exactly a `join` that waits for it. */
  lemma TokenWakes<E>(c: Chan<()>, s: Scope<E>)
    requires Linked(c, s)
    ensures CanSend(c) && c.receivers != [] <==> s.completions.waiting != []
    ensures c.closed == s.completions.closed
  {
    NeverFull(c);
    hide ChannelRuns.ReceiversOk, ChannelRuns.SendersOk, ChannelRuns.Conserved;
  }

  lemma SignalLinks<E>(c: Chan<()>, s: Scope<E>, me: Id)
    requires Linked(c, s) && Enabled(s, Signal) && me !in c.offers
    ensures Linked(SendReady(c, me, ()), Apply(s, Signal)) && (c.closed || CanSend(c))
  {
    NeverFull(c);
    hide ChannelRuns.Inv, ChannelRuns.Abstract, SendReady;
    ChannelStep(c, ChannelRuns.SendStart(me, ()));
  }

  /** An attempt of the receive in `join`. */
  ghost predicate Attempts<E>(s: Scope<E>, e: ChannelRuns.Event<()>) {
    || (s.join == Receive && e == ChannelRuns.RecvStart(s.receives, false))
    || (s.join == Retry && e == ChannelRuns.RecvWait(s.receives, false, false))
  }

  lemma ReceiveLinks<E>(c: Chan<()>, s: Scope<E>, e: ChannelRuns.Event<()>)
    requires Linked(c, s) && Channel(s) && Attempts(s, e)
    ensures ChannelRuns.Enabled(c, e) && Linked(ChannelRuns.Apply(c, e), Received(s, e))
    ensures ReceiveAnswer(ChannelRuns.Apply(c, e), s, Received(s, e))
    ensures s.receives in ChannelRuns.Apply(c, e).fates <==> Receivable(c)
  {
    hide ChannelRuns.Inv, ChannelRuns.Apply, ChannelRuns.Abstract, ChannelRuns.QueueStep, Channel, Received;
    ReceiveEnabled(c, s, e);
    ChannelStep(c, e);
    LineFates(ChannelRuns.Apply(c, e), ChannelRuns.QueueStep(0, s.completions, e));
    ReceiveResult(s, e);
    ReceiveFinishes(c, s.receives);
  }

  lemma ReceiveFinishes(c: Chan<()>, w: Id)
    requires ChannelRuns.Inv(c) && w !in c.fates
    ensures w in ChannelRuns.Apply(c, ChannelRuns.RecvStart(w, false)).fates <==> Receivable(c)
    ensures w in ChannelRuns.Apply(c, ChannelRuns.RecvWait(w, false, false)).fates <==> Receivable(c)
  {
    hide ChannelRuns.ReceiversOk, ChannelRuns.SendersOk, RecvAttempt;
    ChannelWaiters.RecvEffect(c.(known := c.known + {w}), w, false, false);
    ChannelWaiters.RecvEffect(c, w, true, false);
  }

  lemma LineFates(c: Chan<()>, q: ChannelRuns.Queue<()>)
    requires ChannelRuns.Abstract(c) == q
    ensures c.fates == q.fates
  {
  }

  lemma ReceiveEnabled<E>(c: Chan<()>, s: Scope<E>, e: ChannelRuns.Event<()>)
    requires Linked(c, s) && Channel(s) && Attempts(s, e)
    ensures ChannelRuns.Enabled(c, e) && s.receives !in c.fates
  {
    LineFates(c, s.completions);
  }

  /** What `join` sees of the attempt. */
  ghost predicate ReceiveAnswer<E>(d: Chan<()>, s: Scope<E>, t: Scope<E>) {
    && (t.join in {Retry, JoinPc.Waiting} <==> s.receives !in d.fates)
    && (t.join == Handler <==> s.receives in d.fates && d.fates[s.receives] == SawClosed)
  }

  lemma ReceiveResult<E>(s: Scope<E>, e: ChannelRuns.Event<()>)
    requires Channel(s) && Attempts(s, e)
    ensures var q, t := ChannelRuns.QueueStep(0, s.completions, e), Received(s, e);
            && t.completions == q
            && t.receives == s.receives + (if s.receives in q.fates then 1 else 0)
            && (t.join in {Retry, JoinPc.Waiting} <==> s.receives !in q.fates)
            && (t.join == Handler <==> s.receives in q.fates && q.fates[s.receives] == SawClosed)
  {
    hide ChannelRuns.QueueStep;
    RecvStep(s.completions, s.receives, s.join == Receive);
  }

  class ScopeState<E> {
    var active: nat
    var firstException: Option<E>
    var stopRequested: bool
    const completions: MC.MessageChannel<()>
    ghost var view: Scope<E>

    ghost predicate Valid()
      reads this, completions
    {
      && active == view.active && firstException == view.firstException && stopRequested == view.stopRequested
      && TaskScope.Inv(view) && completions.Valid() && Linked(completions.view, view)
    }

    constructor ()
      ensures Valid() && view == TaskScope.Init() && fresh(completions)
    {
      active, firstException, stopRequested, view := 0, None, false, TaskScope.Init();
      completions := new MC.MessageChannel(0);
      new;
      EmptyChannel<E>();
      InitInv<E>();
    }

    method SpawnChild()
      requires Valid()
      modifies this
      ensures Valid() && view == Apply(old(view), Spawn)
    {
      ApplyKeeps(view, Spawn);
      active := active + 1;
      view := Apply(view, Spawn);
    }

    /** A child whose task threw: the first exception is kept. */
    method RecordFailure(error: E)
      requires Valid() && Enabled(view, Fail(error))
      modifies this
      ensures Valid() && view == Apply(old(view), Fail(error))
    {
      ApplyKeeps(view, Fail(error));
      if firstException.None? {
        firstException := Some(error);
      }
      view := Apply(view, Fail(error));
    }

    method StopTheSiblings()
      requires Valid() && Enabled(view, StopSiblings)
      modifies this
      ensures Valid() && view == Apply(old(view), StopSiblings)
    {
      ApplyKeeps(view, StopSiblings);
      stopRequested := true;
      view := Apply(view, StopSiblings);
    }

    method LeaveScope() returns (becameEmpty: bool)
      requires Valid() && Enabled(view, Leave)
      modifies this
      ensures Valid() && view == Apply(old(view), Leave) && becameEmpty == (view.active == 0)
    {
      hide MC.RepReceivers, MC.RepSenders, ChannelRuns.Inv, Channel, Tokens;
      ApplyKeeps(view, Leave);
      active := active - 1;
      view := Apply(view, Leave);
      becameEmpty := active == 0;
    }

    method CloseCompletions() returns (schedule: bool)
      requires Valid() && Enabled(view, Close)
      modifies this, completions
      ensures Valid() && view == Apply(old(view), Close) && schedule == !old(view).completions.closed
    {
      hide TaskScope.Inv, MC.RepReceivers, MC.RepSenders, ChannelRuns.QueueStep, ChannelRuns.Inv, ChannelRuns.Abstract;
      ApplyKeeps(view, Close);
      TokenWakes(completions.view, view);
      ChannelStep(completions.view, ChannelRuns.Shut);
      schedule := completions.Close();
      view := Apply(view, Close);
    }

    /** The last act of a child that did not empty the scope: `async_send` never has to wait. */
    method SignalCompletion(me: Id) returns (go: bool, wake: bool)
      requires Valid() && Enabled(view, Signal) && me !in completions.senders
      modifies this, completions
      ensures Valid() && view == Apply(old(view), Signal) && go && wake == (old(view).completions.waiting != [])
    {
      hide Linked, TaskScope.Inv, SendReady, MC.RepReceivers;
      ApplyKeeps(view, Signal);
      TokenWakes(completions.view, view);
      SignalLinks(completions.view, view, me);
      go, wake := completions.SendReady(me, ());
      view := Apply(view, Signal);
    }

    method RequestStop()
      requires Valid()
      modifies this
      ensures Valid() && view == Apply(old(view), TaskScope.RequestStop)
    {
      ApplyKeeps(view, TaskScope.RequestStop);
      stopRequested := true;
      view := Apply(view, TaskScope.RequestStop);
    }

    /** The two halves of the stop callback that `join` installs. */
    method StopFromCallback()
      requires Valid() && Enabled(view, CallbackStop)
      modifies this
      ensures Valid() && view == Apply(old(view), CallbackStop)
    {
      ApplyKeeps(view, CallbackStop);
      stopRequested := true;
      view := Apply(view, CallbackStop);
    }

    method SendFromCallback() returns (wake: bool)
      requires Valid() && Enabled(view, CallbackSend)
      modifies this, completions
      ensures Valid() && view == Apply(old(view), CallbackSend) && wake == (old(view).completions.waiting != [])
    {
      hide TaskScope.Inv, MC.RepReceivers, MC.RepSenders, ChannelRuns.QueueStep, ChannelRuns.Inv, ChannelRuns.Abstract;
      ApplyKeeps(view, CallbackSend);
      TokenWakes(completions.view, view);
      ChannelStep(completions.view, ChannelRuns.TrySend(()));
      var turn: MC.Turn;
      turn, wake := completions.BlockingSendTurn((), true);
      view := Apply(view, CallbackSend);
    }

    /** The head of the loop of `join`, with the local flag of the coroutine. */
    method JoinLoopHead(cancelled: bool, joinStop: bool) returns (cancelled': bool)
      requires Valid() && Enabled(view, JoinTop) && cancelled == view.cancelled && joinStop == view.joinStop
      modifies this
      ensures Valid() && view == Apply(old(view), JoinTop) && cancelled' == view.cancelled
    {
      ApplyKeeps(view, JoinTop);
      cancelled' := cancelled;
      if joinStop {
        cancelled' := true;
        stopRequested := true;
      }
      view := Apply(view, JoinTop);
    }

    /** The check under the lock; a result ends `join`. */
    method JoinCheckActive(cancelled: bool) returns (result: Option<Result<E>>)
      requires Valid() && Enabled(view, JoinCheck) && cancelled == view.cancelled
      modifies `view
      ensures Valid() && view == Apply(old(view), JoinCheck) && result == ResultOf(view)
    {
      ApplyKeeps(view, JoinCheck);
      view := Apply(view, JoinCheck);
      if active == 0 {
        result := Some(Outcome(cancelled));
      } else {
        result := None;
      }
    }

    /** What `join` reports once nobody is active. */
    function Outcome(cancelled: bool): Result<E>
      reads this
    {
      if firstException.Some? then Threw(firstException.value) else if cancelled then Cancelled else Returned
    }

    /** `await_ready` of the receive in `join`. */
    method JoinReceiveReady(w: Id) returns (threw: bool)
      requires Valid() && Enabled(view, JoinReceive) && w == view.receives
      modifies this, completions
      ensures Valid() && view == Apply(old(view), JoinReceive) && threw == (view.join == Handler)
    {
      hide Linked, Channel, Children, Tokens, Received, RecvReady, RecvSuspend, MC.RepReceivers, MC.RepSenders;
      ReceivedFrame(view, ChannelRuns.RecvStart(w, false));
      ApplyKeeps(view, JoinReceive);
      ReceiveLinks(completions.view, view, ChannelRuns.RecvStart(w, false));
      MC.FinishedReceiver(completions.receivers, completions.receiverWaiters, completions.view.receivers,
                          completions.view.known, completions.view.fates, w);
      var go, wake, notify := completions.RecvReady(w, MC.Forever);
      MC.FinishedReceiver(completions.receivers, completions.receiverWaiters, completions.view.receivers,
                          completions.view.known, completions.view.fates, w);
      view := Apply(view, JoinReceive);
      threw := false;
      if go {
        threw := MC.ReportOf(completions.receivers[w]) == Some(SawClosed);
      }
    }

    /** `await_suspend` of the receive in `join`. */
    method JoinReceiveSuspend(w: Id) returns (threw: bool)
      requires Valid() && Enabled(view, JoinRetry) && w == view.receives
      modifies this, completions
      ensures Valid() && view == Apply(old(view), JoinRetry) && threw == (view.join == Handler)
    {
      hide Linked, Channel, Children, Tokens, Received, RecvReady, RecvSuspend, MC.RepReceivers, MC.RepSenders;
      ReceivedFrame(view, ChannelRuns.RecvWait(w, false, false));
      ApplyKeeps(view, JoinRetry);
      ReceiveLinks(completions.view, view, ChannelRuns.RecvWait(w, false, false));
      MC.PendingReceiver(completions.receivers, completions.receiverWaiters, completions.view.receivers,
                         completions.view.known, completions.view.fates, w);
      var suspends, wake, notify := completions.RecvSuspend(w, MC.Forever);
      MC.FinishedReceiver(completions.receivers, completions.receiverWaiters, completions.view.receivers,
                          completions.view.known, completions.view.fates, w);
      view := Apply(view, JoinRetry);
      threw := false;
      if !suspends {
        threw := MC.ReportOf(completions.receivers[w]) == Some(SawClosed);
      }
    }

    /** `join` goes on after a flush resumed it. */
    method JoinReceiveResumed(w: Id) returns (threw: bool)
      requires Valid() && Enabled(view, JoinResume) && w == view.receives
      modifies this
      ensures Valid() && view == Apply(old(view), JoinResume) && threw == (view.join == Handler)
    {
      ApplyKeeps(view, JoinResume);
      MC.FinishedReceiver(completions.receivers, completions.receiverWaiters, completions.view.receivers,
                          completions.view.known, completions.view.fates, w);
      view := Apply(view, JoinResume);
      threw := MC.ReportOf(completions.receivers[w]) == Some(SawClosed);
    }

    /** The handler of a receive that found the channel closed. */
    method JoinHandleClosed(cancelled: bool) returns (result: Result<E>)
      requires Valid() && Enabled(view, JoinHandle) && cancelled == view.cancelled
      modifies `view
      ensures Valid() && view == Apply(old(view), JoinHandle) && view.join == Done(result)
    {
      ApplyKeeps(view, JoinHandle);
      view := Apply(view, JoinHandle);
      result := if active == 0 then Outcome(cancelled) else LeakedClosed;
    }
  }

  function ResultOf<E>(s: Scope<E>): Option<Result<E>> {
    if s.join.Done? then Some(s.join.result) else None
  }
}
