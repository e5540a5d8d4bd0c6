/** Per-waiter guarantees of the channel: resumptions, wake-ups, and draining after a close. */
module ChannelWaiters {
  import opened Waiters
  import opened Counting
  import opened ChannelSpec
  import opened ChannelRuns

  // ---------------------------------------------------------------- how often a waiter is resumed

  function Count(q: seq<Id>, x: Id): nat {
    multiset(q)[x]
  }

  lemma CountAppend(a: seq<Id>, b: seq<Id>, x: Id)
    ensures Count(a + b, x) == Count(a, x) + Count(b, x)
  {
  }

  lemma {:induction false} CountNoDup(q: seq<Id>, x: Id)
    requires NoDup(q)
    ensures Count(q, x) == if x in q then 1 else 0
  {
    if q == [] {
    } else {
      assert q == [q[0]] + q[1..];
      CountAppend([q[0]], q[1..], x);
      CountNoDup(q[1..], x);
    }
  }

  /** Resumptions of receiver `x` made so far or already queued for a flush. */
  function Resumptions<T>(s: Chan<T>, x: Id): nat {
    Count(s.resumedReceivers, x) + Count(s.readyReceivers, x)
  }

  function SenderResumptions<T>(s: Chan<T>, x: Id): nat {
    Count(s.resumedSenders, x) + Count(s.readySenders, x)
  }

  /** The race of the two attempts: `x` stores its continuation although its second attempt will succeed. */
  predicate Races<T>(s: Chan<T>, e: Event<T>, x: Id) {
    e.RecvWait? && e.id == x && Receivable(s)
  }

  lemma FinishBill<T>(s: Chan<T>, w: Id, fate: Fate<T>, suspended: bool, x: Id)
    ensures Resumptions(Finish(s, w, fate, suspended), x) == Resumptions(s, x) + One(suspended && x == w)
    ensures Resumptions(ContinueReceiver(s, w), x) == Resumptions(s, x) + One(x == w)
  {
    CountAppend(s.readyReceivers, [w], x);
    CountAppend(s.resumedReceivers, [w], x);
  }

  /** What a receive does to the logs: it ends itself only, and admits at most the oldest parked sender. */
  lemma RecvEffect<T>(s: Chan<T>, w: Id, suspended: bool, expired: bool)
    requires Shape(s)
    ensures var t, done := RecvAttempt(s, w, suspended, expired), Receivable(s) || expired;
            && t.resumedReceivers == (if done then s.resumedReceivers + [w] else s.resumedReceivers)
            && t.readyReceivers == (if suspended && Receivable(s) then s.readyReceivers + [w] else s.readyReceivers)
            && t.fates.Keys == s.fates.Keys + (if done then {w} else {})
            && t.resumedSenders == s.resumedSenders
            && AdmitsHead(s, t)
  {
    if s.buffer != [] {
      PumpOnce(Finish(DropHead(s), w, Got(s.buffer[0]), suspended));
    }
  }

  /** From `s` to `t` nobody but the oldest parked sender, if a value was taken, has ended as accepted. */
  ghost predicate AdmitsHead<T>(s: Chan<T>, t: Chan<T>) {
    if s.buffer != [] && s.senders != [] then
      t.sendFates == s.sendFates[s.senders[0].id := Accepted] && t.readySenders == s.readySenders + [s.senders[0].id]
    else t.sendFates == s.sendFates && t.readySenders == s.readySenders
  }

  lemma RecvBill<T>(s: Chan<T>, w: Id, suspended: bool, expired: bool, x: Id)
    requires Shape(s)
    ensures var t := RecvAttempt(s, w, suspended, expired);
            && Resumptions(t, x) == Resumptions(s, x) + One(x == w && (Receivable(s) || expired))
                                    + One(x == w && suspended && Receivable(s))
            && t.fates.Keys == s.fates.Keys + (if Receivable(s) || expired then {w} else {})
  {
    RecvEffect(s, w, suspended, expired);
    hide RecvAttempt;
    CountAppend(s.readyReceivers, [w], x);
    CountAppend(s.resumedReceivers, [w], x);
  }

  lemma TakeEffect<T>(s: Chan<T>)
    requires Shape(s)
    ensures var t := TakeNow(s);
            && t.resumedReceivers == s.resumedReceivers && t.readyReceivers == s.readyReceivers
            && t.fates == s.fates && t.resumedSenders == s.resumedSenders && AdmitsHead(s, t)
  {
    if s.buffer != [] {
      PumpOnce(DropHead(s).(delivered := s.delivered + [s.buffer[0]]));
    }
  }

  lemma PlaceBill<T>(s: Chan<T>, v: T, x: Id)
    requires Inv(s)
    ensures var t := Place(s, v);
            && Resumptions(t, x) == Resumptions(s, x) + One(x in t.fates && x !in s.fates)
            && t.sendFates == s.sendFates && t.readySenders == s.readySenders && t.resumedSenders == s.resumedSenders
  {
    if s.receivers != [] {
      CountAppend(s.readyReceivers, [s.receivers[0]], x);
      assert s.receivers[0] in s.receivers;
    }
  }

  lemma SendBill<T>(s: Chan<T>, id: Id, v: T, x: Id)
    requires Inv(s) && id !in s.sendFates
    ensures var t := SendAttempt(s, id, v);
            && Resumptions(t, x) == Resumptions(s, x) + One(x in t.fates && x !in s.fates)
            && SenderResumptions(t, x) == SenderResumptions(s, x) + One(x in t.sendFates && x !in s.sendFates)
  {
    hide Place;
    PlaceBill(s, v, x);
    CountAppend(s.resumedSenders, [id], x);
  }

  lemma AdmitBill<T>(s: Chan<T>, t: Chan<T>, x: Id)
    requires Inv(s) && AdmitsHead(s, t) && t.resumedSenders == s.resumedSenders
    ensures SenderResumptions(t, x) == SenderResumptions(s, x) + One(x in t.sendFates && x !in s.sendFates)
  {
    if s.senders != [] {
      AdmitLater(s);
      CountAppend(s.readySenders, [s.senders[0].id], x);
    }
  }

  lemma KnowReceiver<T>(s: Chan<T>, w: Id)
    requires Inv(s)
    ensures Inv(s.(known := s.known + {w}))
  {
    hide SendersOk;
  }

  lemma CloseBill<T>(s: Chan<T>, x: Id)
    requires Inv(s)
    ensures var t := CloseAll(s);
            && Resumptions(t, x) == Resumptions(s, x) + One(x in t.fates && x !in s.fates)
            && SenderResumptions(t, x) == SenderResumptions(s, x) + One(x in t.sendFates && x !in s.sendFates)
  {
    CountAppend(s.readyReceivers, s.receivers, x);
    CountNoDup(s.receivers, x);
    ParkedUnfinished(s);
    CountAppend(s.readySenders, Ids(s.senders), x);
    CountNoDup(Ids(s.senders), x);
  }

  lemma ParkedUnfinished<T>(s: Chan<T>)
    requires Inv(s)
    ensures forall id :: id in Ids(s.senders) ==> id in s.offers && id !in s.sendFates
  {
    forall id | id in Ids(s.senders) ensures id in s.offers && id !in s.sendFates {
      var i :| 0 <= i < |s.senders| && Ids(s.senders)[i] == id;
      assert s.senders[i] in s.senders;
    }
  }

  lemma SendStartInv<T>(s: Chan<T>, id: Id, v: T)
    requires Inv(s) && id !in s.offers
    ensures Inv(s.(offers := s.offers[id := v]))
  {
    hide ReceiversOk;
  }

  lemma RecvResumeStep<T>(s: Chan<T>, e: Event<T>, x: Id)
    requires Inv(s) && Enabled(s, e) && (e.RecvStart? || e.RecvWait?)
    ensures var t := Apply(s, e);
            Resumptions(t, x) == Resumptions(s, x) + One(x in t.fates && x !in s.fates) + One(Races(s, e, x))
  {
    hide SendersOk, RecvAttempt, Count;
    if e.RecvStart? {
      RecvBill(s.(known := s.known + {e.id}), e.id, false, e.expired, x);
    } else {
      RecvBill(s, e.id, true, e.expired, x);
    }
  }

  lemma FlushBill<T>(s: Chan<T>, x: Id)
    ensures Resumptions(Flush(s), x) == Resumptions(s, x)
    ensures SenderResumptions(Flush(s), x) == SenderResumptions(s, x)
  {
    CountAppend(s.resumedReceivers, s.readyReceivers, x);
    CountAppend(s.resumedSenders, s.readySenders, x);
  }

  lemma TimerResumeStep<T>(s: Chan<T>, w: Id, fate: Fate<T>, x: Id)
    requires Inv(s)
    ensures var t := Expire(s, w, fate);
            Resumptions(t, x) == Resumptions(s, x) + One(x in t.fates && x !in s.fates)
  {
    hide SendersOk, Count;
    FinishBill(s.(receivers := Without(s.receivers, w)), w, fate, true, x);
  }

  /** One region bills a receiver exactly once when it ends, and once more in the race. */
  lemma ResumeStep<T>(s: Chan<T>, e: Event<T>, x: Id)
    requires Inv(s) && Enabled(s, e)
    ensures var t := Apply(s, e);
            Resumptions(t, x) == Resumptions(s, x) + One(x in t.fates && x !in s.fates) + One(Races(s, e, x))
  {
    hide ReceiversOk, SendersOk, RecvAttempt, SendAttempt, TakeNow, Place, CloseAll, Expire, Count;
    match e {
      case TrySend(v) => PlaceBill(s, v, x);
      case SendStart(id, v) =>
        SendStartInv(s, id, v);
        SendFatesOffered(s);
        SendBill(s.(offers := s.offers[id := v]), id, v, x);
      case SendWait(id, v) => SendBill(s, id, v, x);
      case RecvStart(w, expired) => RecvResumeStep(s, e, x);
      case RecvWait(w, expired, _) => RecvResumeStep(s, e, x);
      case Take => TakeEffect(s);
      case Shut => CloseBill(s, x);
      case Timer(w, failed) => TimerResumeStep(s, w, if failed then TimerFailed else TimedOut, x);
      case Resume => FlushBill(s, x);
    }
  }

  ghost predicate RacesIn<T>(s: Chan<T>, es: seq<Event<T>>, x: Id)
    decreases |es|
  {
    es != [] && (Races(s, es[0], x) || RacesIn(Apply(s, es[0]), es[1..], x))
  }

  /** A finished receiver can no longer race. */
  lemma {:induction false} FinishedNeverRaces<T>(s: Chan<T>, es: seq<Event<T>>, x: Id)
    requires Inv(s) && Legal(s, es) && x in s.fates
    ensures !RacesIn(s, es, x)
    decreases |es|
  {
    if es == [] {
    } else {
      ApplyKeeps(s, es[0]);
      ApplyLater(s, es[0]);
      FinishedNeverRaces(Apply(s, es[0]), es[1..], x);
    }
  }

  lemma RaceFinishes<T>(s: Chan<T>, e: Event<T>, x: Id)
    requires Inv(s) && Enabled(s, e) && Races(s, e, x)
    ensures x in Apply(s, e).fates
  {
    RecvBill(s, x, true, e.expired, x);
  }

  lemma {:induction false} ResumeRun<T>(s: Chan<T>, es: seq<Event<T>>, x: Id)
    requires Inv(s) && Legal(s, es)
    ensures var t := Run(s, es);
            Resumptions(t, x) == Resumptions(s, x) + One(x in t.fates && x !in s.fates) + One(RacesIn(s, es, x))
    decreases |es|
  {
    if es == [] {
    } else {
      var s1 := Apply(s, es[0]);
      ResumeStep(s, es[0], x);
      ApplyKeeps(s, es[0]);
      ApplyLater(s, es[0]);
      ResumeRun(s1, es[1..], x);
      RunLater(s1, es[1..]);
      if Races(s, es[0], x) {
        RaceFinishes(s, es[0], x);
        FinishedNeverRaces(s1, es[1..], x);
      }
    }
  }

  /** Over any run a receiver is resumed once when it ends, and never before; twice exactly if it raced. */
  lemma ResumedOnceUnlessRaced<T>(capacity: nat, es: seq<Event<T>>, x: Id)
    requires Legal(Init(capacity), es)
    ensures var t := Run(Init(capacity), es);
            && Resumptions(t, x) <= 2
            && (Resumptions(t, x) == 2 <==> RacesIn(Init(capacity), es, x))
            && (Resumptions(t, x) == 0 <==> x !in t.fates)
  {
    hide Apply, Inv, Enabled;
    FifoConservation<T>(capacity, []);
    RunNothing(Init<T>(capacity));
    ResumeRun(Init<T>(capacity), es, x);
    if RacesIn(Init<T>(capacity), es, x) {
      RacedIsFinished(Init<T>(capacity), es, x);
    }
  }

  lemma {:induction false} RacedIsFinished<T>(s: Chan<T>, es: seq<Event<T>>, x: Id)
    requires Inv(s) && Legal(s, es) && RacesIn(s, es, x)
    ensures x in Run(s, es).fates
    decreases |es|
  {
    var s1 := Apply(s, es[0]);
    ApplyKeeps(s, es[0]);
    if Races(s, es[0], x) {
      RaceFinishes(s, es[0], x);
      RunLater(s1, es[1..]);
    } else {
      RacedIsFinished(s1, es[1..], x);
    }
  }

  lemma RunStep<T>(s: Chan<T>, es: seq<Event<T>>)
    requires es != []
    ensures Run(s, es) == Run(Apply(s, es[0]), es[1..])
    ensures Legal(s, es) <==> Enabled(s, es[0]) && Legal(Apply(s, es[0]), es[1..])
  {
  }

  lemma RunNothing<T>(s: Chan<T>)
    ensures Run(s, []) == s && Legal(s, [])
  {
  }

  function RacedBefore(v: int): Chan<int> {
    Init<int>(0).(known := {0}, accepted := [v], buffer := [v])
  }

  function RacedAfter(v: int): Chan<int> {
    RacedBefore(v).(buffer := [], fates := map[0 := Got(v)], delivered := [v],
                    readyReceivers := [0], resumedReceivers := [0])
  }

  lemma RacePrepared(v: int)
    ensures Apply(Apply(Init<int>(0), RecvStart(0, false)), TrySend(v)) == RacedBefore(v)
    ensures Enabled(Init<int>(0), RecvStart(0, false)) && Enabled(Apply(Init<int>(0), RecvStart(0, false)), TrySend(v))
  {
  }

  lemma RaceHappens(v: int)
    ensures Apply(RacedBefore(v), RecvWait(0, false, false)) == RacedAfter(v)
    ensures Enabled(RacedBefore(v), RecvWait(0, false, false))
  {
    PumpOnce(Finish(DropHead(RacedBefore(v)), 0, Got(v), true));
  }

  lemma RaceFlushed(v: int)
    ensures Run(RacedAfter(v), [Resume]).resumedReceivers == [0, 0] && Legal(RacedAfter(v), [Resume])
    ensures Run(RacedAfter(v), [Resume]).fates == map[0 := Got(v)]
  {
    RunNothing(Flush(RacedAfter(v)));
    var es: seq<Event<int>> := [Resume];
    assert es[1..] == [];
  }

  /** A run with the race: the receive finds nothing, a send buffers its value, the second attempt takes it. */
  lemma DoubleResumeExample(v: int)
    ensures var es := [RecvStart(0, false), TrySend(v), RecvWait(0, false, false), Resume];
            && Legal(Init<int>(0), es)
            && Run(Init<int>(0), es).resumedReceivers == [0, 0]
            && Run(Init<int>(0), es).fates == map[0 := Got(v)]
  {
    hide Run, Legal, Apply, Enabled, RacedBefore, RacedAfter;
    var s0: Chan<int>, e: Event<int> := Init(0), RecvStart(0, false);
    var f: Event<int>, g: Event<int> := TrySend(v), RecvWait(0, false, false);
    RacePrepared(v);
    RaceHappens(v);
    RaceFlushed(v);
    RunStep(RacedBefore(v), [g, Resume]);
    RunStep(Apply(s0, e), [f, g, Resume]);
    RunStep(s0, [e, f, g, Resume]);
    assert [g, Resume][1..] == [Resume] && [f, g, Resume][1..] == [g, Resume];
    assert [e, f, g, Resume][1..] == [f, g, Resume];
  }

  /** An asynchronous sender has no such race. */
  lemma SenderResumeStep<T>(s: Chan<T>, e: Event<T>, x: Id)
    requires Inv(s) && Enabled(s, e)
    ensures var t := Apply(s, e);
            SenderResumptions(t, x) == SenderResumptions(s, x) + One(x in t.sendFates && x !in s.sendFates)
  {
    hide SendersOk, ReceiversOk, RecvAttempt, SendAttempt, TakeNow, Place, CloseAll, AdmitsHead, Expire, Count;
    match e {
      case TrySend(v) => PlaceBill(s, v, x);
      case SendStart(id, v) =>
        SendStartInv(s, id, v);
        SendFatesOffered(s);
        SendBill(s.(offers := s.offers[id := v]), id, v, x);
      case SendWait(id, v) => SendBill(s, id, v, x);
      case RecvStart(w, expired) =>
        KnowReceiver(s, w);
        RecvEffect(s.(known := s.known + {w}), w, false, expired);
        AdmitBill(s.(known := s.known + {w}), Apply(s, e), x);
      case RecvWait(w, expired, _) =>
        if Receivable(s) || expired {
          RecvEffect(s, w, true, expired);
          AdmitBill(s, Apply(s, e), x);
        }
      case Take =>
        TakeEffect(s);
        AdmitBill(s, TakeNow(s), x);
      case Shut => CloseBill(s, x);
      case Resume => FlushBill(s, x);
      case Timer(w, failed) => TimerLeavesSenders(s, w, if failed then TimerFailed else TimedOut);
    }
  }

  lemma TimerLeavesSenders<T>(s: Chan<T>, w: Id, fate: Fate<T>)
    ensures var t := Expire(s, w, fate);
            t.sendFates == s.sendFates && t.readySenders == s.readySenders && t.resumedSenders == s.resumedSenders
  {
  }

  lemma SendFatesOffered<T>(s: Chan<T>)
    requires Inv(s)
    ensures s.sendFates.Keys <= s.offers.Keys
  {
  }

  /** Over any run an asynchronous sender is resumed exactly once when it ends, and never before. */
  lemma {:induction false} SenderResumedOnce<T>(s: Chan<T>, es: seq<Event<T>>, x: Id)
    requires Inv(s) && Legal(s, es)
    requires SenderResumptions(s, x) == One(x in s.sendFates)
    ensures SenderResumptions(Run(s, es), x) == One(x in Run(s, es).sendFates)
    decreases |es|
  {
    if es == [] {
    } else {
      SenderResumeStep(s, es[0], x);
      ApplyKeeps(s, es[0]);
      ApplyLater(s, es[0]);
      SenderResumedOnce(Apply(s, es[0]), es[1..], x);
    }
  }

  // ---------------------------------------------------------------- draining after a close

  /** A region that asks for a value. */
  predicate Asks<T>(e: Event<T>) {
    e.RecvStart? || e.RecvWait? || e.Take?
  }

  /** The receives of a run that ask for a value. */
  function Receives<T>(es: seq<Event<T>>): nat {
    if es == [] then 0
    else One(Asks(es[0])) + Receives(es[1..])
  }

  lemma ReceivesOne<T>(e: Event<T>)
    ensures Receives([e]) == One(Asks(e))
  {
    assert |[e][1..]| == 0;
  }

  /** From `s` to `t`, both closed, `n` messages of the buffer were handed out, or all if there were fewer. */
  ghost predicate Drains<T>(s: Chan<T>, t: Chan<T>, n: nat) {
    t.closed && t.buffer == s.buffer[Min(n, |s.buffer|)..]
    && t.delivered == s.delivered + s.buffer[..Min(n, |s.buffer|)]
  }

  lemma DrainsHead<T>(s: Chan<T>, t: Chan<T>)
    requires t.closed && s.buffer != []
    requires t.buffer == s.buffer[1..] && t.delivered == s.delivered + [s.buffer[0]]
    ensures Drains(s, t, 1)
  {
    assert s.buffer[..1] == [s.buffer[0]];
  }

  lemma DrainsNothing<T>(s: Chan<T>, t: Chan<T>, n: nat)
    requires t.closed && t.buffer == s.buffer && t.delivered == s.delivered && (n == 0 || s.buffer == [])
    ensures Drains(s, t, n)
  {
    assert s.delivered + s.buffer[..0] == s.delivered;
  }

  lemma DrainsTwice<T>(s: Chan<T>, t: Chan<T>, u: Chan<T>, a: nat, b: nat)
    requires Drains(s, t, a) && Drains(t, u, b)
    ensures Drains(s, u, a + b)
  {
    var m := Min(a, |s.buffer|);
    var n := Min(b, |s.buffer| - m);
    assert m + n == Min(a + b, |s.buffer|);
    assert s.buffer[..m + n] == s.buffer[..m] + s.buffer[m..][..n];
  }

  lemma RecvDrains<T>(s: Chan<T>, w: Id, suspended: bool, expired: bool)
    requires Shape(s) && s.closed
    ensures var t := RecvAttempt(s, w, suspended, expired);
            Drains(s, t, 1) && w in t.fates && t.fates[w] == if s.buffer != [] then Got(s.buffer[0]) else SawClosed
  {
    hide Drains;
    var t := RecvAttempt(s, w, suspended, expired);
    if s.buffer != [] {
      PumpOnce(Finish(DropHead(s), w, Got(s.buffer[0]), suspended));
      DrainsHead(s, t);
    } else {
      DrainsNothing(s, t, 1);
    }
  }

  lemma TakeDrains<T>(s: Chan<T>)
    requires Shape(s) && s.closed
    ensures Drains(s, TakeNow(s), 1)
  {
    hide Drains;
    if s.buffer != [] {
      PumpOnce(DropHead(s).(delivered := s.delivered + [s.buffer[0]]));
      DrainsHead(s, TakeNow(s));
    } else {
      DrainsNothing(s, TakeNow(s), 1);
    }
  }

  /** A closed channel takes nothing in, and nothing but a receive moves its buffer. */
  lemma ClosedStays<T>(s: Chan<T>, e: Event<T>)
    requires Inv(s) && s.closed && !Asks(e)
    ensures Drains(s, Apply(s, e), 0)
  {
    hide ReceiversOk, SendersOk, Conserved, TakeNow, RecvAttempt, RecvReady, RecvSuspend, AllTo, Drains;
    DrainsNothing(s, Apply(s, e), 0);
  }

  lemma ReceiveDrains<T>(s: Chan<T>, e: Event<T>)
    requires Inv(s) && s.closed && (e.RecvStart? || e.RecvWait?)
    ensures Drains(s, Apply(s, e), 1) && e.id in Apply(s, e).fates
    ensures Apply(s, e).fates[e.id] == if s.buffer != [] then Got(s.buffer[0]) else SawClosed
  {
    hide ReceiversOk, SendersOk, Conserved, RecvAttempt;
    if e.RecvStart? {
      RecvDrains(s.(known := s.known + {e.id}), e.id, false, e.expired);
    } else {
      RecvDrains(s, e.id, true, e.expired);
    }
  }

  lemma TakeStepDrains<T>(s: Chan<T>)
    requires Inv(s) && s.closed
    ensures Drains(s, Apply(s, Take), 1)
  {
    hide ReceiversOk, SendersOk, Conserved, TakeNow;
    TakeDrains(s);
  }

  lemma DrainStep<T>(s: Chan<T>, e: Event<T>)
    requires Inv(s) && Enabled(s, e) && s.closed
    ensures Drains(s, Apply(s, e), Receives([e]))
  {
    hide Apply, Inv, Enabled, Receives, Drains;
    ReceivesOne(e);
    if e.RecvStart? || e.RecvWait? {
      ReceiveDrains(s, e);
    } else if e.Take? {
      TakeStepDrains(s);
    } else {
      ClosedStays(s, e);
    }
  }

  /** After the close a run hands out exactly the buffered messages, in order, one per receive. */
  lemma {:induction false} Drain<T>(s: Chan<T>, es: seq<Event<T>>)
    requires Inv(s) && Legal(s, es) && s.closed
    ensures Drains(s, Run(s, es), Receives(es))
    decreases |es|
  {
    hide Apply, Inv, Enabled, Drains;
    if es == [] {
      DrainsNothing(s, s, 0);
    } else {
      var s1 := Apply(s, es[0]);
      DrainStep(s, es[0]);
      ApplyKeeps(s, es[0]);
      DrainsClosed(s, s1, Receives([es[0]]));
      Drain(s1, es[1..]);
      ReceivesOne(es[0]);
      DrainsTwice(s, s1, Run(s, es), Receives([es[0]]), Receives(es[1..]));
    }
  }

  lemma DrainsClosed<T>(s: Chan<T>, t: Chan<T>, n: nat)
    requires Drains(s, t, n)
    ensures t.closed && t.buffer == s.buffer[Min(n, |s.buffer|)..]
  {
  }

  /** The k-th awaited receive after the close gets the k-th buffered message, and every later one sees closed. */
  lemma DrainedReceive<T>(s: Chan<T>, es: seq<Event<T>>, w: Id, expired: bool)
    requires Inv(s) && s.closed && Legal(s, es + [RecvStart(w, expired)])
    ensures var t, k := Run(s, es + [RecvStart(w, expired)]), Receives(es);
            w in t.fates && t.fates[w] == if k < |s.buffer| then Got(s.buffer[k]) else SawClosed
  {
    hide Apply, Inv, Enabled, Drains;
    var e: Event<T> := RecvStart(w, expired);
    RunConcat(s, es, [e]);
    Drain(s, es);
    DrainsClosed(s, Run(s, es), Receives(es));
    RunsKeepInv(s, es);
    ReceiveDrains(Run(s, es), e);
    RunStep(Run(s, es), [e]);
    RunNothing(Apply(Run(s, es), e));
  }

  // ---------------------------------------------------------------- wake-ups

  /** The flag with which each region asks for a flush. */
  predicate AsksFlush<T>(s: Chan<T>, e: Event<T>) {
    match e
    case TrySend(_) => CanSend(s) && s.receivers != []
    case SendStart(_, _) => CanSend(s) && s.receivers != []
    case SendWait(_, _) => CanSend(s) && s.receivers != []
    case RecvStart(_, _) => TryRecvWakes(s)
    case RecvWait(_, _, _) => TryRecvWakes(s)
    case Take => TryRecvWakes(s)
    case Shut => !s.closed
    case Timer(_, _) => true
    case Resume => true
  }

  /** The flag with which each region notifies blocked senders; `close` always does. */
  predicate TellsSenders<T>(s: Chan<T>, e: Event<T>) {
    match e
    case RecvStart(_, _) => TryRecvNotifies(s)
    case RecvWait(_, _, _) => TryRecvNotifies(s)
    case Take => TakeNowNotifies(s)
    case Shut => true
    case _ => false
  }

  /** Whoever queues another waiter for resumption asks for a flush. */
  lemma ReadyIsFlushed<T>(s: Chan<T>, e: Event<T>)
    requires Inv(s) && Enabled(s, e) && !AsksFlush(s, e)
    ensures Apply(s, e).readySenders == s.readySenders
    ensures Apply(s, e).readyReceivers == s.readyReceivers
         || (e.RecvWait? && Apply(s, e).readyReceivers == s.readyReceivers + [e.id])
  {
    if s.buffer != [] {
      PumpOnce(DropHead(s));
    }
    match e {
      case RecvStart(w, expired) => RecvEffect(s.(known := s.known + {w}), w, false, expired);
      case RecvWait(w, expired, _) => RecvEffect(s, w, true, expired);
      case Take => TakeEffect(s);
      case Shut => assert s.receivers == [] && s.senders == [] && Ids(s.senders) == [];
      case _ =>
    }
  }

  lemma Longer(q: seq<Id>, r: seq<Id>)
    ensures r != [] ==> q + [r[0]] != q
  {
    assert r != [] ==> |q + [r[0]]| == |q| + 1;
  }

  /** A region asks for a flush exactly if it queues somebody else for resumption. */
  lemma FlushIsNeeded<T>(s: Chan<T>, e: Event<T>)
    requires Inv(s) && Enabled(s, e) && !e.Shut? && !e.Timer? && !e.Resume?
    ensures var t := Apply(s, e);
            AsksFlush(s, e) <==> t.readySenders != s.readySenders
                                 || (t.readyReceivers != s.readyReceivers && !(e.RecvWait? && Receivable(s)))
  {
    if s.buffer != [] {
      PumpOnce(DropHead(s));
    }
    Longer(s.readyReceivers, s.receivers);
    match e {
      case RecvStart(w, expired) => RecvEffect(s.(known := s.known + {w}), w, false, expired);
      case RecvWait(w, expired, _) => RecvEffect(s, w, true, expired);
      case Take => TakeEffect(s);
      case _ =>
    }
  }

  /** Waiters are queued for resumption in the order in which they end, and a flush resumes them in that order; a close
      ends them oldest first. */
  ghost predicate InOrder<T>(s: Chan<T>, t: Chan<T>, e: Event<T>) {
    if e.Resume? then
      && t.resumedReceivers == s.resumedReceivers + s.readyReceivers && t.readyReceivers == []
      && t.resumedSenders == s.resumedSenders + s.readySenders && t.readySenders == []
    else
      && s.readyReceivers <= t.readyReceivers && s.readySenders <= t.readySenders
      && (e.Shut? ==> t.readyReceivers == s.readyReceivers + s.receivers
                      && t.readySenders == s.readySenders + Ids(s.senders))
  }

  lemma TakesInOrder<T>(s: Chan<T>, e: Event<T>)
    requires Shape(s) && (e.RecvStart? || e.RecvWait? || e.Take?)
    ensures InOrder(s, Apply(s, e), e)
  {
    hide RecvAttempt, TakeNow;
    match e {
      case RecvStart(w, expired) => RecvEffect(s.(known := s.known + {w}), w, false, expired);
      case RecvWait(w, expired, _) => RecvEffect(s, w, true, expired);
      case Take => TakeEffect(s);
    }
  }

  lemma SendsInOrder<T>(s: Chan<T>, e: Event<T>)
    requires e.TrySend? || e.SendStart? || e.SendWait?
    ensures InOrder(s, Apply(s, e), e)
  {
    hide RecvAttempt, TakeNow;
  }

  lemma ResumedInOrder<T>(s: Chan<T>, e: Event<T>)
    requires Inv(s) && Enabled(s, e)
    ensures InOrder(s, Apply(s, e), e)
  {
    hide ReceiversOk, SendersOk, Conserved, RecvReady, RecvSuspend, SendReady, SendSuspend, TakeNow, Place;
    if e.RecvStart? || e.RecvWait? || e.Take? {
      TakesInOrder(s, e);
    } else if e.TrySend? || e.SendStart? || e.SendWait? {
      SendsInOrder(s, e);
    }
  }

  /** An awaited receive notifies blocked senders exactly if it took a value. */
  lemma NotifiesIffTaken<T>(s: Chan<T>, e: Event<T>)
    requires Inv(s) && Enabled(s, e) && (e.RecvStart? || e.RecvWait?)
    ensures TellsSenders(s, e) <==> Apply(s, e).delivered != s.delivered
  {
    StepRefinesQueue(s, e);
    hide Apply, Enabled, SendersOk, ReceiversOk, Conserved;
    assert s.buffer == [] ==> Line(s) == [];
    assert Line(s) != [] ==> |s.delivered + [Line(s)[0]]| == |s.delivered| + 1;
  }

  /** No awaited receive, and no other region but `try_recv`, opens the channel for blocked senders unannounced. */
  lemma OpeningIsAnnounced<T>(s: Chan<T>, e: Event<T>)
    requires Inv(s) && Enabled(s, e) && e != Take
    requires !CanSend(s) && CanSend(Apply(s, e))
    ensures TellsSenders(s, e)
  {
    match e {
      case RecvStart(w, expired) => assert CanSend(s.(known := s.known + {w})) == CanSend(s);
      case Timer(w, _) =>
      case _ =>
    }
  }

  /** `try_recv` does open it unannounced, exactly when it takes from a full buffer nobody is parked behind. */
  lemma TakeOpensSilently<T>(s: Chan<T>)
    requires Inv(s)
    ensures (!CanSend(s) && CanSend(TakeNow(s)) && !TakeNowNotifies(s))
       <==> (!s.closed && s.senders == [] && s.capacity > 0 && |s.buffer| == s.capacity)
  {
    if s.buffer != [] {
      PumpOnce(DropHead(s).(delivered := s.delivered + [s.buffer[0]]));
      PumpOnce(DropHead(s));
    }
  }

  lemma SilentTakeExample(v: int)
    ensures var s := Run(Init<int>(1), [TrySend(v)]);
            Inv(s) && !CanSend(s) && CanSend(TakeNow(s)) && !TakeNowNotifies(s)
  {
    FifoConservation(1, [TrySend(v)]);
    var s := Run(Init<int>(1), [TrySend(v)]);
    assert [TrySend(v)][1..] == [];
    assert s == Apply(Init<int>(1), TrySend(v));
    TakeOpensSilently(s);
  }
}
