/** The bounded channel as it is implemented: deques of shared waiters pruned at the front, flags on the waiters,
    and loops under the lock.  Every method is proved to act on `view` as the FIFO-level function of
    `ChannelSpec` says, from any well-formed state: none of them relies on the invariants of reachable states. */
module MessageChannel {
  import opened Waiters
  import opened ChannelSpec

  datatype Failure = ClosedError | UvError

  datatype Reception<+T> = Reception(value: Option<T>, failure: Option<Failure>, timedOut: bool)

  datatype Offer<+T> = Offer(value: Option<T>, failure: Option<Failure>)

  /** What `await_resume` of a receiver reports. */
  function ReportOf<T>(x: Waiter<Reception<T>>): Option<Fate<T>> {
    match x.payload.failure
    case Some(ClosedError) => Some(SawClosed)
    case Some(UvError) => Some(TimerFailed)
    case None =>
      if x.payload.timedOut then Some(TimedOut)
      else if x.payload.value.Some? then Some(Got(x.payload.value.value)) else None
  }

  /** What `await_resume` of a sender reports. */
  function SendReportOf<T>(x: Waiter<Offer<T>>): SendFate {
    if x.payload.failure.Some? then Refused else Accepted
  }

  /** The shared receivers and their deque, against the FIFO queue and the finished receivers. */
  ghost predicate RepReceivers<T>(table: Table<Reception<T>>, deque: seq<Id>,
                                  live: seq<Id>, known: set<Id>, fates: map<Id, Fate<T>>)
  {
    && Known(table, deque) && NoDup(deque) && live == Live(table, deque)
    && known == table.Keys && fates.Keys <= known
    && (forall w :: w in table ==> RepReceiver(table[w], w, fates))
    && (forall w :: w in deque ==> Queued(table[w]))
  }

  ghost predicate RepReceiver<T>(x: Waiter<Reception<T>>, w: Id, fates: map<Id, Fate<T>>) {
    && (x.completed <==> w in fates)
    && (x.completed ==> ReportOf(x) == Some(fates[w]))
    && (!x.completed ==> x.active && x.payload.failure == None && !x.payload.timedOut)
  }

  predicate Queued<P>(x: Waiter<P>) {
    x.suspended && (x.active ==> !x.completed)
  }

  ghost predicate RepSenders<T>(table: Table<Offer<T>>, deque: seq<Id>,
                                parked: seq<Parked<T>>, offers: map<Id, T>, sendFates: map<Id, SendFate>)
  {
    && Known(table, deque) && NoDup(deque) && Ids(parked) == Live(table, deque)
    && offers.Keys == table.Keys && sendFates.Keys <= offers.Keys
    && (forall id :: id in table ==> RepSender(table[id], id, offers[id], sendFates))
    && (forall id :: id in deque ==> Queued(table[id]))
    && (forall p :: p in parked ==> p.id in offers && p.value == offers[p.id])
  }

  ghost predicate RepSender<T>(x: Waiter<Offer<T>>, id: Id, offer: T, sendFates: map<Id, SendFate>) {
    && (x.completed <==> id in sendFates)
    && (x.completed ==> SendReportOf(x) == sendFates[id])
    && (!x.completed ==> x.active && x.payload == Offer(Some(offer), None))
  }

  /** Ending a receiver that has left the deque. */
  lemma EndReceiver<T>(table: Table<Reception<T>>, deque: seq<Id>, live: seq<Id>, known: set<Id>,
                       fates: map<Id, Fate<T>>, w: Id, x: Waiter<Reception<T>>, fate: Fate<T>)
    requires RepReceivers(table, deque, live, known, fates)
    requires w in table && w !in deque
    requires x.completed && ReportOf(x) == Some(fate)
    ensures RepReceivers(table[w := x], deque, live, known, fates[w := fate])
  {
    LiveFrame(table, deque, w, x);
  }

  lemma CreateReceiver<T>(table: Table<Reception<T>>, deque: seq<Id>, live: seq<Id>, known: set<Id>,
                          fates: map<Id, Fate<T>>, w: Id)
    requires RepReceivers(table, deque, live, known, fates) && w !in table
    ensures RepReceivers(table[w := Waiter(true, false, false, Reception(None, None, false))],
                         deque, live, known + {w}, fates)
    ensures w !in deque
  {
    LiveFrame(table, deque, w, Waiter(true, false, false, Reception(None, None, false)));
  }

  lemma SuspendReceiver<T>(table: Table<Reception<T>>, deque: seq<Id>, live: seq<Id>, known: set<Id>,
                           fates: map<Id, Fate<T>>, w: Id)
    requires RepReceivers(table, deque, live, known, fates)
    requires w in table && w !in deque && !table[w].completed
    ensures RepReceivers(table[w := table[w].(suspended := true)], deque, live, known, fates)
    ensures table[w].active
  {
    LiveFrame(table, deque, w, table[w].(suspended := true));
  }

  lemma QueueReceiver<T>(table: Table<Reception<T>>, deque: seq<Id>, live: seq<Id>, known: set<Id>,
                         fates: map<Id, Fate<T>>, w: Id)
    requires RepReceivers(table, deque, live, known, fates)
    requires w in table && w !in deque && Queued(table[w]) && table[w].active
    ensures RepReceivers(table, deque + [w], live + [w], known, fates)
  {
    LiveAppend(table, deque, w);
  }

  /** A timer finds its receiver waiting exactly if the receiver is in the FIFO queue. */
  lemma ReceiverStatus<T>(table: Table<Reception<T>>, deque: seq<Id>, live: seq<Id>, known: set<Id>,
                          fates: map<Id, Fate<T>>, w: Id)
    requires RepReceivers(table, deque, live, known, fates)
    requires w in live || w in fates
    ensures w in table && (w in live <==> table[w].active && !table[w].completed)
    ensures w in live ==> table[w].suspended && table[w].payload.failure == None && !table[w].payload.timedOut
  {
    LiveMembers(table, deque);
  }

  /** A known receiver that neither waits nor has finished is still between its two attempts. */
  lemma PendingReceiver<T>(table: Table<Reception<T>>, deque: seq<Id>, live: seq<Id>, known: set<Id>,
                           fates: map<Id, Fate<T>>, w: Id)
    requires RepReceivers(table, deque, live, known, fates)
    requires w in known && w !in live && w !in fates
    ensures w in table && w !in deque && !table[w].completed
  {
    LiveMembers(table, deque);
  }

  lemma FinishedReceiver<T>(table: Table<Reception<T>>, deque: seq<Id>, live: seq<Id>, known: set<Id>,
                            fates: map<Id, Fate<T>>, w: Id)
    requires RepReceivers(table, deque, live, known, fates)
    ensures w in fates <==> w in table && table[w].completed
    ensures w in fates ==> ReportOf(table[w]) == Some(fates[w])
    ensures w !in known ==> w !in table
  {
  }

  /** The converse: what the flags and the deque say of a receiver between its two attempts. */
  lemma IdleReceiver<T>(table: Table<Reception<T>>, deque: seq<Id>, live: seq<Id>, known: set<Id>,
                        fates: map<Id, Fate<T>>, w: Id)
    requires RepReceivers(table, deque, live, known, fates)
    ensures w in known <==> w in table
    ensures w in table && !table[w].completed && w !in deque <==> w in known && w !in fates && w !in live
    ensures w in table && (table[w].completed || w in deque) <==> w in known && (w in fates || w in live)
  {
    LiveMembers(table, deque);
  }

  lemma IdleSender<T>(table: Table<Offer<T>>, deque: seq<Id>, parked: seq<Parked<T>>,
                      offers: map<Id, T>, sendFates: map<Id, SendFate>, id: Id)
    requires RepSenders(table, deque, parked, offers, sendFates)
    ensures id in offers <==> id in table
    ensures id in table && !table[id].completed && id !in deque <==> id in offers && id !in sendFates && id !in Ids(parked)
  {
    LiveMembers(table, deque);
  }

  /** A receiver may end while it still sits in the deque. */
  lemma ExpireReceiver<T>(table: Table<Reception<T>>, deque: seq<Id>, live: seq<Id>, known: set<Id>,
                          fates: map<Id, Fate<T>>, w: Id, x: Waiter<Reception<T>>, fate: Fate<T>)
    requires RepReceivers(table, deque, live, known, fates)
    requires w in table && x.completed && !x.active && x.suspended && ReportOf(x) == Some(fate)
    ensures RepReceivers(table[w := x], deque, Without(live, w), known, fates[w := fate])
  {
    LiveDeactivate(table, deque, w, x);
  }

  lemma CreateSender<T>(table: Table<Offer<T>>, deque: seq<Id>, parked: seq<Parked<T>>,
                        offers: map<Id, T>, sendFates: map<Id, SendFate>, id: Id, v: T)
    requires RepSenders(table, deque, parked, offers, sendFates) && id !in table
    ensures RepSenders(table[id := Waiter(true, false, false, Offer(Some(v), None))],
                       deque, parked, offers[id := v], sendFates)
    ensures id !in deque
  {
    LiveFrame(table, deque, id, Waiter(true, false, false, Offer(Some(v), None)));
  }

  lemma SuspendSender<T>(table: Table<Offer<T>>, deque: seq<Id>, parked: seq<Parked<T>>,
                         offers: map<Id, T>, sendFates: map<Id, SendFate>, id: Id)
    requires RepSenders(table, deque, parked, offers, sendFates)
    requires id in table && id !in deque && !table[id].completed
    ensures RepSenders(table[id := table[id].(suspended := true)], deque, parked, offers, sendFates)
    ensures id in offers && table[id].active && table[id].payload.value == Some(offers[id])
  {
    LiveFrame(table, deque, id, table[id].(suspended := true));
  }

  lemma QueueSender<T>(table: Table<Offer<T>>, deque: seq<Id>, parked: seq<Parked<T>>,
                       offers: map<Id, T>, sendFates: map<Id, SendFate>, id: Id)
    requires RepSenders(table, deque, parked, offers, sendFates)
    requires id in table && id !in deque && Queued(table[id]) && table[id].active
    ensures RepSenders(table, deque + [id], parked + [Parked(id, offers[id])], offers, sendFates)
  {
    LiveAppend(table, deque, id);
    assert Ids(parked + [Parked(id, offers[id])]) == Ids(parked) + [id];
  }

  lemma PendingSender<T>(table: Table<Offer<T>>, deque: seq<Id>, parked: seq<Parked<T>>,
                         offers: map<Id, T>, sendFates: map<Id, SendFate>, id: Id)
    requires RepSenders(table, deque, parked, offers, sendFates) && id in table && !table[id].completed
    ensures table[id].payload.failure == None
  {
  }

  /** Ending a sender that has left the deque. */
  lemma EndSender<T>(table: Table<Offer<T>>, deque: seq<Id>, parked: seq<Parked<T>>,
                     offers: map<Id, T>, sendFates: map<Id, SendFate>, id: Id, x: Waiter<Offer<T>>)
    requires RepSenders(table, deque, parked, offers, sendFates)
    requires id in table && id !in deque && x.completed
    ensures RepSenders(table[id := x], deque, parked, offers, sendFates[id := SendReportOf(x)])
  {
    LiveFrame(table, deque, id, x);
  }

  /** A time limit of a receive; `Forever` for a receive without one. */
  datatype Limit = Forever | Within(ms: int)

  predicate Expired(limit: Limit) {
    limit.Within? && limit.ms <= 0
  }

  datatype Turn = Placed | WouldBlock | MustWait | IsClosed

  class MessageChannel<T> {
    const capacity: nat
    var messages: seq<T>
    var receivers: Table<Reception<T>>
    var senders: Table<Offer<T>>
    var receiverWaiters: seq<Id>
    var senderWaiters: seq<Id>
    var readyReceivers: seq<Id>
    var readySenders: seq<Id>
    var resumedReceivers: seq<Id>
    var resumedSenders: seq<Id>
    var closed: bool
    var handleClosing: bool
    var timers: set<Id>             // receivers that have waited with a timer

    ghost var view: Chan<T>

    ghost predicate Valid()
      reads this
    {
      && view.capacity == capacity && view.buffer == messages
      && view.closed == closed == handleClosing && view.timed == timers
      && view.readyReceivers == readyReceivers && view.readySenders == readySenders
      && view.resumedReceivers == resumedReceivers && view.resumedSenders == resumedSenders
      && RepReceivers(receivers, receiverWaiters, view.receivers, view.known, view.fates)
      && RepSenders(senders, senderWaiters, view.senders, view.offers, view.sendFates)
    }

    constructor (capacity: nat)
      ensures Valid() && view == Init(capacity)
    {
      this.capacity := capacity;
      messages, receivers, senders, receiverWaiters, senderWaiters := [], map[], map[], [], [];
      readyReceivers, readySenders, resumedReceivers, resumedSenders := [], [], [], [];
      closed, handleClosing, timers := false, false, {};
      view := Init(capacity);
    }

    method PopReceiver() returns (front: Option<Id>)
      requires Valid()
      modifies `receiverWaiters, `view
      ensures Valid()
      ensures old(view).receivers == [] ==> front == None && view == old(view)
      ensures old(view).receivers != [] ==>
                && front == Some(old(view).receivers[0])
                && view == old(view).(receivers := old(view).receivers[1..])
                && front.value in receivers && front.value !in receiverWaiters
                && !receivers[front.value].completed && receivers[front.value].suspended
    {
      front, receiverWaiters := Pop(receivers, receiverWaiters);
      if front.Some? {
        view := view.(receivers := view.receivers[1..]);
      }
    }

    method PopSender() returns (front: Option<Id>)
      requires Valid()
      modifies `senderWaiters, `view
      ensures Valid()
      ensures old(view).senders == [] ==> front == None && view == old(view)
      ensures old(view).senders != [] ==>
                && front == Some(old(view).senders[0].id)
                && view == old(view).(senders := old(view).senders[1..])
                && front.value in senders && front.value !in senderWaiters
                && !senders[front.value].completed && senders[front.value].suspended
                && senders[front.value].payload.value == Some(old(view).senders[0].value)
    {
      ghost var parked := view.senders;
      assert |parked| == |Live(senders, senderWaiters)|;
      front, senderWaiters := Pop(senders, senderWaiters);
      if front.Some? {
        assert parked[0].id == front.value && parked[0] in parked;
        view := view.(senders := parked[1..]);
        assert Ids(parked[1..]) == Ids(parked)[1..];
      }
    }

    /** The two queries prune as a side effect and leave the FIFO queues alone. */
    method HasWaitingReceivers() returns (b: bool)
      requires Valid()
      modifies `receiverWaiters
      ensures Valid() && b == (view.receivers != [])
    {
      receiverWaiters := Prune(receivers, receiverWaiters);
      b := receiverWaiters != [];
    }

    method HasWaitingSenders() returns (b: bool)
      requires Valid()
      modifies `senderWaiters
      ensures Valid() && b == (view.senders != [])
      ensures forall id :: id in senderWaiters ==> id in old(senderWaiters)
    {
      senderWaiters := Prune(senders, senderWaiters);
      assert |view.senders| == |Live(senders, senderWaiters)|;
      b := senderWaiters != [];
    }

    method CanSendNow() returns (b: bool)
      requires Valid()
      modifies `receiverWaiters, `senderWaiters
      ensures Valid() && b == CanSend(view)
      ensures forall id :: id in senderWaiters ==> id in old(senderWaiters)
    {
      if closed || handleClosing {
        return false;
      }
      var blocked := HasWaitingSenders();
      if blocked {
        return false;
      }
      var waiting := HasWaitingReceivers();
      return waiting || capacity == 0 || |messages| < capacity;
    }

    method CompleteReceiverValue(w: Id, v: T)
      requires Valid() && w in receivers && w !in receiverWaiters && !receivers[w].completed
      modifies `receivers, `readyReceivers, `view
      ensures Valid() && view == Finish(old(view), w, Got(v), old(receivers[w].suspended))
    {
      var x := receivers[w];
      var y := Waiter(false, true, x.suspended, x.payload.(value := Some(v), timedOut := false));
      EndReceiver(receivers, receiverWaiters, view.receivers, view.known, view.fates, w, y, Got(v));
      receivers := receivers[w := y];
      if x.suspended {
        readyReceivers := readyReceivers + [w];
      }
      view := Finish(view, w, Got(v), x.suspended);
    }

    method CompleteReceiverClosed(w: Id)
      requires Valid() && w in receivers && w !in receiverWaiters && !receivers[w].completed
      modifies `receivers, `readyReceivers, `view
      ensures Valid() && view == Finish(old(view), w, SawClosed, old(receivers[w].suspended))
    {
      var x := receivers[w];
      var y := Waiter(false, true, x.suspended, x.payload.(failure := Some(ClosedError)));
      EndReceiver(receivers, receiverWaiters, view.receivers, view.known, view.fates, w, y, SawClosed);
      receivers := receivers[w := y];
      if x.suspended {
        readyReceivers := readyReceivers + [w];
      }
      view := Finish(view, w, SawClosed, x.suspended);
    }

    /** Takes the value out of a popped sender and ends it: `accepted`, or with the closed error. */
    method CompleteSender(id: Id, failure: Option<Failure>)
      requires Valid() && id in senders && id !in senderWaiters && !senders[id].completed && senders[id].suspended
      modifies `senders, `readySenders, `view
      ensures Valid()
      ensures view == old(view).(
                        sendFates := old(view).sendFates[id := if failure.Some? then Refused else Accepted],
                        readySenders := old(view).readySenders + [id])
    {
      var x := senders[id];
      var y := Waiter(false, true, x.suspended,
                      Offer(if failure.Some? then x.payload.value else None, failure));
      EndSender(senders, senderWaiters, view.senders, view.offers, view.sendFates, id, y);
      senders := senders[id := y];
      readySenders := readySenders + [id];
      view := view.(sendFates := view.sendFates[id := if failure.Some? then Refused else Accepted],
                    readySenders := view.readySenders + [id]);
    }

    method PlaceSend(v: T) returns (wake: bool)
      requires Valid()
      modifies `messages, `receivers, `receiverWaiters, `readyReceivers, `view
      ensures Valid() && view == Place(old(view), v)
      ensures wake == (old(view).receivers != [])
    {
      hide RepReceivers, RepSenders;
      var receiver := PopReceiver();
      view := view.(accepted := view.accepted + [v]);
      if receiver.Some? {
        CompleteReceiverValue(receiver.value, v);
        return true;
      }
      messages := messages + [v];
      view := view.(buffer := view.buffer + [v]);
      return false;
    }

    /** Puts a receiver that was popped for nothing back at the front. */
    method UnpopReceiver(w: Id)
      requires Valid() && w in receivers && w !in receiverWaiters && !receivers[w].completed && receivers[w].suspended
      modifies `receiverWaiters, `view
      ensures Valid() && view == old(view).(receivers := [w] + old(view).receivers)
    {
      receiverWaiters := [w] + receiverWaiters;
      view := view.(receivers := [w] + view.receivers);
    }

    /** One turn of the pump's first loop. */
    method ServeTurn() returns (served: bool, notify: bool)
      requires Valid()
      modifies this
      ensures Valid() && served == Serves(old(view)) && notify == PumpNotifies(old(view))
      ensures view == if served then ServeOne(old(view)) else old(view)
    {
      hide RepReceivers, RepSenders;
      var receiver := PopReceiver();
      if receiver.None? {
        return false, false;
      }
      if messages != [] {
        var value := messages[0];
        messages := messages[1..];
        view := DropHead(view);
        CompleteReceiverValue(receiver.value, value);
        return true, true;
      }
      var sender := PopSender();
      if sender.Some? {
        CompleteReceiverValue(receiver.value, senders[sender.value].payload.value.value);
        CompleteSender(sender.value, None);
        return true, false;
      }
      UnpopReceiver(receiver.value);
      return false, false;
    }

    /** One turn of the pump's second loop. */
    method RefillTurn() returns (moved: bool)
      requires Valid()
      modifies this
      ensures Valid() && moved == (old(view).senders != [])
      ensures view == if moved then RefillOne(old(view)) else old(view)
    {
      hide RepReceivers, RepSenders;
      var sender := PopSender();
      if sender.None? {
        return false;
      }
      messages := messages + [senders[sender.value].payload.value.value];
      view := view.(buffer := messages);
      CompleteSender(sender.value, None);
      return true;
    }

    method PumpLocked() returns (wake: bool, notify: bool)
      requires Valid()
      modifies this
      ensures Valid() && view == Pump(old(view))
      ensures wake == PumpWakes(old(view)) && notify == PumpNotifies(old(view))
    {
      hide RepReceivers, RepSenders;
      wake, notify := false, false;
      ghost var start := view;
      while true
        invariant Valid() && Serve(view) == Serve(start)
        invariant (wake || Serves(view)) == Serves(start)
        invariant (notify || PumpNotifies(view)) == PumpNotifies(start)
        decreases |view.receivers|
      {
        var served, fromBuffer := ServeTurn();
        if !served {
          break;
        }
        wake, notify := true, notify || fromBuffer;
      }
      ghost var mid := view;
      while capacity == 0 || |messages| < capacity
        invariant Valid() && Refill(view) == Refill(mid)
        invariant (wake || Refills(view)) == (Serves(start) || Refills(mid))
        decreases |view.senders|
      {
        var moved := RefillTurn();
        if !moved {
          break;
        }
        wake := true;
      }
    }

    /** `try_recv_locked`: the second result says whether the receiver is finished. */
    method TryRecvLocked(w: Id) returns (finished: bool, wake: bool, notify: bool)
      requires Valid() && w in receivers && w !in receiverWaiters && !receivers[w].completed
      modifies this
      ensures Valid() && view == TryRecv(old(view), w, old(receivers[w].suspended))
      ensures finished == Receivable(old(view))
      ensures !finished ==> receivers == old(receivers) && w !in receiverWaiters
      ensures wake == TryRecvWakes(old(view)) && notify == TryRecvNotifies(old(view))
    {
      hide RepReceivers, RepSenders;
      if messages != [] {
        var value := messages[0];
        messages := messages[1..];
        view := DropHead(view);
        CompleteReceiverValue(w, value);
        wake, notify := PumpLocked();
        return true, wake, true;
      }
      var sender := PopSender();
      if sender.Some? {
        CompleteReceiverValue(w, senders[sender.value].payload.value.value);
        CompleteSender(sender.value, None);
        return true, true, false;
      }
      if closed || handleClosing {
        CompleteReceiverClosed(w);
        return true, false, false;
      }
      return false, false, false;
    }

    /** The attempt both phases of a receive make. */
    method RecvAttempt(w: Id, limit: Limit) returns (done: bool, wake: bool, notify: bool)
      requires Valid() && w in receivers && w !in receiverWaiters && !receivers[w].completed
      modifies this
      ensures Valid() && done == (Receivable(old(view)) || Expired(limit))
      ensures view == ChannelSpec.RecvAttempt(old(view), w, old(receivers[w].suspended), Expired(limit))
      ensures wake == TryRecvWakes(old(view)) && notify == TryRecvNotifies(old(view))
      ensures !done ==> receivers == old(receivers) && w !in receiverWaiters
    {
      hide RepReceivers, RepSenders;
      done, wake, notify := TryRecvLocked(w);
      if !done && limit.Within? && limit.ms <= 0 {
        TimeOut(w);
        done := true;
      }
      if done {
        resumedReceivers := resumedReceivers + [w];
        view := ContinueReceiver(view, w);
      }
    }

    /** `await_ready` of `recv` and `recv_for`. */
    method RecvReady(w: Id, limit: Limit) returns (go: bool, wake: bool, notify: bool)
      requires Valid() && w !in receivers
      modifies this
      ensures Valid() && view == ChannelSpec.RecvReady(old(view), w, Expired(limit))
      ensures go == (Receivable(old(view)) || Expired(limit))
      ensures wake == TryRecvWakes(old(view)) && notify == TryRecvNotifies(old(view))
    {
      hide RepReceivers, RepSenders;
      var waiter := Waiter(true, false, false, Reception(None, None, false));
      CreateReceiver(receivers, receiverWaiters, view.receivers, view.known, view.fates, w);
      receivers := receivers[w := waiter];
      view := view.(known := view.known + {w});
      go, wake, notify := RecvAttempt(w, limit);
    }

    /** `await_suspend` of `recv` and `recv_for`: the continuation is stored before the second attempt. */
    method RecvSuspend(w: Id, limit: Limit) returns (suspends: bool, wake: bool, notify: bool)
      requires Valid() && w in receivers && w !in receiverWaiters && !receivers[w].completed
      modifies this
      ensures Valid() && view == ChannelSpec.RecvSuspend(old(view), w, Expired(limit), limit.Within?)
      ensures suspends == !(Receivable(old(view)) || Expired(limit))
      ensures wake == TryRecvWakes(old(view)) && notify == TryRecvNotifies(old(view))
    {
      hide RepReceivers, RepSenders;
      SuspendReceiver(receivers, receiverWaiters, view.receivers, view.known, view.fates, w);
      receivers := receivers[w := receivers[w].(suspended := true)];
      var done: bool;
      done, wake, notify := RecvAttempt(w, limit);
      if !done {
        QueueReceiver(receivers, receiverWaiters, view.receivers, view.known, view.fates, w);
        receiverWaiters := receiverWaiters + [w];
        timers := if limit.Within? then timers + {w} else timers;
        view := view.(receivers := view.receivers + [w],
                      timed := if limit.Within? then view.timed + {w} else view.timed);
      }
      suspends := !done;
    }

    /** A time limit that is already over: completed and timed out, but neither queued nor inactive. */
    method TimeOut(w: Id)
      requires Valid() && w in receivers && w !in receiverWaiters && !receivers[w].completed
      modifies `receivers, `view
      ensures Valid() && view == Finish(old(view), w, TimedOut, false)
    {
      var x := receivers[w].(completed := true, payload := receivers[w].payload.(timedOut := true));
      EndReceiver(receivers, receiverWaiters, view.receivers, view.known, view.fates, w, x, TimedOut);
      receivers := receivers[w := x];
      view := Finish(view, w, TimedOut, false);
    }

    method TryRecvNow() returns (value: Option<T>, wake: bool, notify: bool)
      requires Valid()
      modifies this
      ensures Valid() && view == TakeNow(old(view))
      ensures value == if old(view).buffer != [] then Some(old(view).buffer[0])
                       else if old(view).senders != [] then Some(old(view).senders[0].value) else None
      ensures wake == TryRecvWakes(old(view)) && notify == TakeNowNotifies(old(view))
    {
      hide RepReceivers, RepSenders;
      if messages != [] {
        value := Some(messages[0]);
        messages := messages[1..];
        view := DropHead(view).(delivered := view.delivered + [value.value]);
        wake, notify := PumpLocked();
        return;
      }
      var sender := PopSender();
      if sender.None? {
        return None, false, false;
      }
      value := senders[sender.value].payload.value;
      view := view.(delivered := view.delivered + [value.value]);
      CompleteSender(sender.value, None);
      return value, true, true;
    }

    /** One turn of a blocking send after taking the lock; `try_send` fails where this one must wait. */
    method BlockingSendTurn(v: T, loopThread: bool) returns (turn: Turn, wake: bool)
      requires Valid()
      modifies this
      ensures Valid()
      ensures turn == if old(view).closed then IsClosed else if CanSend(old(view)) then Placed
                      else if loopThread then WouldBlock else MustWait
      ensures view == if turn.Placed? then Place(old(view), v) else old(view)
      ensures wake == (turn.Placed? && old(view).receivers != [])
    {
      hide RepReceivers, RepSenders;
      if closed || handleClosing {
        return IsClosed, false;
      }
      var can := CanSendNow();
      if !can {
        return if loopThread then WouldBlock else MustWait, false;
      }
      wake := PlaceSend(v);
      return Placed, wake;
    }

    /** `await_ready` of an asynchronous send. */
    method SendReady(id: Id, v: T) returns (go: bool, wake: bool)
      requires Valid() && id !in senders
      modifies this
      ensures Valid() && view == ChannelSpec.SendReady(old(view), id, v)
      ensures go == (old(view).closed || CanSend(old(view)))
      ensures wake == (CanSend(old(view)) && old(view).receivers != [])
    {
      hide RepReceivers, RepSenders;
      var waiter := Waiter(true, false, false, Offer(Some(v), None));
      CreateSender(senders, senderWaiters, view.senders, view.offers, view.sendFates, id, v);
      senders := senders[id := waiter];
      view := view.(offers := view.offers[id := v]);
      go, wake := SendAttempt(id, v);
    }

    /** `await_suspend` of an asynchronous send. */
    method SendSuspend(id: Id) returns (suspends: bool, wake: bool)
      requires Valid() && id in senders && id !in senderWaiters && !senders[id].completed
      modifies this
      ensures Valid() && view == ChannelSpec.SendSuspend(old(view), id, old(view).offers[id])
      ensures suspends == !(old(view).closed || CanSend(old(view)))
      ensures wake == (CanSend(old(view)) && old(view).receivers != [])
    {
      hide RepReceivers, RepSenders;
      SuspendSender(senders, senderWaiters, view.senders, view.offers, view.sendFates, id);
      senders := senders[id := senders[id].(suspended := true)];
      var v := senders[id].payload.value.value;
      var done: bool;
      done, wake := SendAttempt(id, v);
      if !done {
        QueueSender(senders, senderWaiters, view.senders, view.offers, view.sendFates, id);
        senderWaiters := senderWaiters + [id];
        view := view.(senders := view.senders + [Parked(id, v)], accepted := view.accepted + [v]);
      }
      suspends := !done;
    }

    /** The attempt both phases of an asynchronous send make. */
    method SendAttempt(id: Id, v: T) returns (done: bool, wake: bool)
      requires Valid() && id in senders && id !in senderWaiters && !senders[id].completed
      modifies this
      ensures Valid() && done == (old(view).closed || CanSend(old(view)))
      ensures view == ChannelSpec.SendAttempt(old(view), id, v)
      ensures wake == (CanSend(old(view)) && old(view).receivers != [])
      ensures !done ==> senders == old(senders) && id !in senderWaiters
    {
      hide RepReceivers, RepSenders;
      wake := false;
      PendingSender(senders, senderWaiters, view.senders, view.offers, view.sendFates, id);
      var x := senders[id];
      if closed || handleClosing {
        x := x.(completed := true, payload := x.payload.(failure := Some(ClosedError)));
      } else {
        var can := CanSendNow();
        if !can {
          return false, false;
        }
        wake := PlaceSend(v);
        x := x.(completed := true, payload := x.payload.(value := None));
      }
      EndSender(senders, senderWaiters, view.senders, view.offers, view.sendFates, id, x);
      senders := senders[id := x];
      resumedSenders := resumedSenders + [id];
      view := ContinueSender(view.(sendFates := view.sendFates[id := SendReportOf(x)]), id);
      done := true;
    }

    /** One turn of the first loop of `close`. */
    method CloseReceiverTurn() returns (found: bool)
      requires Valid()
      modifies this
      ensures Valid() && found == (old(view).receivers != [])
      ensures view == if found then CloseReceiver(old(view)) else old(view)
    {
      hide RepReceivers, RepSenders;
      var receiver := PopReceiver();
      if receiver.Some? {
        CompleteReceiverClosed(receiver.value);
      }
      found := receiver.Some?;
    }

    /** One turn of the second loop of `close`. */
    method CloseSenderTurn() returns (found: bool)
      requires Valid()
      modifies this
      ensures Valid() && found == (old(view).senders != [])
      ensures view == if found then CloseSender(old(view)) else old(view)
    {
      hide RepReceivers, RepSenders;
      var sender := PopSender();
      if sender.Some? {
        view := view.(refused := view.refused + [senders[sender.value].payload.value.value]);
        CompleteSender(sender.value, Some(ClosedError));
      }
      found := sender.Some?;
    }

    method Close() returns (schedule: bool)
      requires Valid()
      modifies this
      ensures Valid() && view == CloseAll(old(view)) && schedule == !old(view).closed
    {
      hide RepReceivers, RepSenders, AllTo;
      schedule := !handleClosing;
      closed, handleClosing := true, true;
      view := view.(closed := true);
      var more := true;
      while more
        invariant Valid() && view.closed && CloseAll(view) == CloseAll(old(view))
        invariant !more ==> view.receivers == []
        decreases |view.receivers|, more
      {
        ghost var before := view;
        more := CloseReceiverTurn();
        if more {
          CloseOneReceiver(before);
        }
      }
      more := true;
      while more
        invariant Valid() && view.closed && view.receivers == [] && CloseAll(view) == CloseAll(old(view))
        invariant !more ==> view.senders == []
        decreases |view.senders|, more
      {
        ghost var before := view;
        more := CloseSenderTurn();
        if more {
          CloseOneSender(before);
        }
      }
      CloseNothing(view);
    }

    /** `fire` and `fail` of the timer of a receiver that has waited. */
    method TimerReport(w: Id, failed: bool)
      requires Valid() && (w in view.receivers || w in view.fates)
      modifies `receivers, `readyReceivers, `view
      ensures Valid() && view == Expire(old(view), w, if failed then TimerFailed else TimedOut)
    {
      hide RepReceivers, RepSenders;
      ReceiverStatus(receivers, receiverWaiters, view.receivers, view.known, view.fates, w);
      if receivers[w].active && !receivers[w].completed {
        var payload := receivers[w].payload;
        var x := Waiter(false, true, receivers[w].suspended,
                        if failed then payload.(failure := Some(UvError)) else payload.(timedOut := true));
        ExpireReceiver(receivers, receiverWaiters, view.receivers, view.known, view.fates, w, x,
                       if failed then TimerFailed else TimedOut);
        receivers := receivers[w := x];
        readyReceivers := readyReceivers + [w];
        view := Expire(view, w, if failed then TimerFailed else TimedOut);
      }
    }

    /** The locked region of a flush: the ready queues are swapped out. */
    method TakeReady() returns (readyNow: seq<Id>, sendersNow: seq<Id>)
      requires Valid()
      modifies `readyReceivers, `readySenders, `view
      ensures Valid() && view == old(view).(readyReceivers := [], readySenders := [])
      ensures readyNow == old(view).readyReceivers && sendersNow == old(view).readySenders
    {
      hide RepReceivers, RepSenders;
      readyNow, sendersNow := readyReceivers, readySenders;
      readyReceivers, readySenders := [], [];
      view := view.(readyReceivers := [], readySenders := []);
    }

    method ResumeReceiver(w: Id)
      requires Valid()
      modifies `resumedReceivers, `view
      ensures Valid() && view == ContinueReceiver(old(view), w)
    {
      hide RepReceivers, RepSenders;
      resumedReceivers := resumedReceivers + [w];
      view := ContinueReceiver(view, w);
    }

    method ResumeSender(id: Id)
      requires Valid()
      modifies `resumedSenders, `view
      ensures Valid() && view == ContinueSender(old(view), id)
    {
      hide RepReceivers, RepSenders;
      resumedSenders := resumedSenders + [id];
      view := ContinueSender(view, id);
    }
  }
}
