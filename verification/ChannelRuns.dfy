/** What the channel guarantees over every run: any interleaving of the lock-protected regions of any number of
    senders, receivers, timers, closes and flushes. */
module ChannelRuns {
  import opened Waiters
  import opened ChannelSpec

  datatype Event<+T> =
    | TrySend(value: T)                               // a turn of `send`, `try_send`
    | SendStart(id: Id, value: T)                     // `await_ready` of `async_send`
    | SendWait(id: Id, value: T)                      // `await_suspend` of `async_send`
    | RecvStart(id: Id, expired: bool)                // `await_ready` of `recv`, `recv_for`
    | RecvWait(id: Id, expired: bool, timed: bool)    // `await_suspend` of `recv`, `recv_for`
    | Take                                            // `try_recv`, the first region of `blocking_next`
    | Shut                                            // `close`
    | Timer(id: Id, failed: bool)                     // the timer of a waiting receiver fires or fails
    | Resume                                          // a flush

  /** The order in which one waiter's regions can occur; nothing is assumed across waiters. */
  ghost predicate Enabled<T>(s: Chan<T>, e: Event<T>) {
    match e
    case SendStart(id, _) => id !in s.offers
    case SendWait(id, v) => id in s.offers && s.offers[id] == v && id !in s.sendFates && id !in Ids(s.senders)
    case RecvStart(id, _) => id !in s.known
    case RecvWait(id, _, _) => id in s.known && id !in s.fates && id !in s.receivers
    case Timer(id, _) => id in s.timed
    case _ => true
  }

  ghost function Apply<T>(s: Chan<T>, e: Event<T>): Chan<T> {
    match e
    case TrySend(v) => if CanSend(s) then Place(s, v) else s
    case SendStart(id, v) => SendReady(s, id, v)
    case SendWait(id, v) => SendSuspend(s, id, v)
    case RecvStart(id, expired) => RecvReady(s, id, expired)
    case RecvWait(id, expired, timed) => RecvSuspend(s, id, expired, timed)
    case Take => TakeNow(s)
    case Shut => CloseAll(s)
    case Timer(id, failed) => Expire(s, id, if failed then TimerFailed else TimedOut)
    case Resume => Flush(s)
  }

  ghost predicate Legal<T>(s: Chan<T>, es: seq<Event<T>>)
    decreases |es|
  {
    es != [] ==> Enabled(s, es[0]) && Legal(Apply(s, es[0]), es[1..])
  }

  ghost function Run<T>(s: Chan<T>, es: seq<Event<T>>): Chan<T>
    decreases |es|
  {
    if es == [] then s else Run(Apply(s, es[0]), es[1..])
  }

  lemma {:induction false} RunConcat<T>(s: Chan<T>, a: seq<Event<T>>, b: seq<Event<T>>)
    ensures Run(s, a + b) == Run(Run(s, a), b)
    ensures Legal(s, a + b) <==> Legal(s, a) && Legal(Run(s, a), b)
    decreases |a|
  {
    if a == [] {
      assert a + b == b;
    } else {
      assert (a + b)[0] == a[0] && (a + b)[1..] == a[1..] + b;
      RunConcat(Apply(s, a[0]), a[1..], b);
    }
  }

  // ---------------------------------------------------------------- the invariants of reachable states

  /** A waiting receiver means nothing to receive; a parked sender means an exactly full buffer. */
  ghost predicate Shape<T>(s: Chan<T>) {
    && (s.capacity > 0 ==> |s.buffer| <= s.capacity)
    && (s.receivers != [] ==> s.buffer == [] && s.senders == [] && !s.closed)
    && (s.senders != [] ==> s.capacity > 0 && |s.buffer| == s.capacity && !s.closed)
  }

  /** Every accepted value is, in acceptance order, handed out, buffered, parked or refused by the close. */
  ghost predicate Conserved<T>(s: Chan<T>) {
    && s.accepted == s.delivered + s.buffer + Values(s.senders) + s.refused
    && (s.refused != [] ==> s.closed)
  }

  /** Waiting receivers are distinct and unfinished, and only they or finished ones have a timer. */
  ghost predicate ReceiversOk<T>(receivers: seq<Id>, known: set<Id>, fates: map<Id, Fate<T>>, timed: set<Id>) {
    && NoDup(receivers) && fates.Keys <= known
    && (forall w :: w in receivers ==> w in known && w !in fates)
    && (forall w :: w in timed ==> w in fates || w in receivers)
  }

  /** Parked senders are distinct and unfinished, and hold the value they offered. */
  ghost predicate SendersOk<T>(senders: seq<Parked<T>>, offers: map<Id, T>, sendFates: map<Id, SendFate>) {
    && NoDup(Ids(senders)) && sendFates.Keys <= offers.Keys
    && (forall p :: p in senders ==> p.id in offers && offers[p.id] == p.value && p.id !in sendFates)
  }

  ghost predicate Distinct<T>(s: Chan<T>) {
    ReceiversOk(s.receivers, s.known, s.fates, s.timed) && SendersOk(s.senders, s.offers, s.sendFates)
  }

  ghost predicate Inv<T>(s: Chan<T>) {
    Shape(s) && Conserved(s) && Distinct(s)
  }

  /** The pump with no receiver waiting and one free slot in front of the parked senders moves at most one value. */
  lemma PumpOnce<T>(s: Chan<T>)
    requires s.receivers == [] && (s.senders != [] ==> s.capacity > 0 && |s.buffer| == s.capacity - 1)
    ensures Pump(s) == if s.senders == [] then s else RefillOne(s)
    ensures (PumpWakes(s) <==> s.senders != []) && !PumpNotifies(s)
  {
    if s.senders != [] {
      var t := RefillOne(s);
      assert |t.buffer| == s.capacity && Refill(t) == t;
      assert Serve(s) == s && Refill(s) == Refill(t);
    }
  }

  lemma OtherIds<T>(senders: seq<Parked<T>>, p: Parked<T>)
    requires NoDup(Ids(senders)) && senders != [] && p in senders[1..]
    ensures p in senders && p.id != senders[0].id
  {
    var i :| 0 <= i < |senders| - 1 && senders[1..][i] == p;
    assert Ids(senders)[i + 1] == p.id && Ids(senders)[0] == senders[0].id;
  }

  /** The oldest parked sender may leave with any fate. */
  lemma AdmitKeeps<T>(senders: seq<Parked<T>>, offers: map<Id, T>, sendFates: map<Id, SendFate>, fate: SendFate)
    requires SendersOk(senders, offers, sendFates) && senders != []
    ensures SendersOk(senders[1..], offers, sendFates[senders[0].id := fate])
  {
    var sendFates' := sendFates[senders[0].id := fate];
    assert senders[0] in senders;
    forall p | p in senders[1..] ensures p.id in offers && offers[p.id] == p.value && p.id !in sendFates' {
      OtherIds(senders, p);
    }
    assert NoDup(Ids(senders[1..])) by {
      IdsTail(senders);
    }
  }

  /** A receiver that does not wait, or the oldest one that does, may end with any fate. */
  lemma FinishKeeps<T>(receivers: seq<Id>, known: set<Id>, fates: map<Id, Fate<T>>, timed: set<Id>, fate: Fate<T>)
    requires ReceiversOk(receivers, known, fates, timed) && receivers != []
    ensures ReceiversOk(receivers[1..], known, fates[receivers[0] := fate], timed)
  {
    assert receivers == [receivers[0]] + receivers[1..];
  }

  lemma IdsAppend<T>(senders: seq<Parked<T>>, p: Parked<T>)
    ensures Ids(senders + [p]) == Ids(senders) + [p.id]
    ensures Values(senders + [p]) == Values(senders) + [p.value]
  {
  }

  /** The state a take leaves: the head of the buffer gone and, if a sender is parked, the oldest moved in. */
  function AfterTake<T>(s: Chan<T>): Chan<T>
    requires s.buffer != []
  {
    if s.senders == [] then DropHead(s) else RefillOne(DropHead(s))
  }

  lemma AfterTakeKeeps<T>(s: Chan<T>)
    requires Inv(s) && s.buffer != []
    ensures Inv(AfterTake(s).(delivered := s.delivered + [s.buffer[0]]))
  {
    hide SendersOk, ReceiversOk, Conserved;
    AfterTakeConserves(s);
    if s.senders != [] {
      AdmitKeeps(s.senders, s.offers, s.sendFates, Accepted);
    }
  }

  lemma ShiftOne<T>(d: seq<T>, b: seq<T>, v: T, tail: seq<T>)
    requires b != []
    ensures d + b == d + [b[0]] + b[1..]
    ensures d + b + ([v] + tail) == d + [b[0]] + (b[1..] + [v]) + tail
  {
  }

  lemma AfterTakeConserves<T>(s: Chan<T>)
    requires Conserved(s) && s.buffer != []
    ensures Conserved(AfterTake(s).(delivered := s.delivered + [s.buffer[0]]))
  {
    hide Values;
    if s.senders == [] {
      ShiftOne(s.delivered, s.buffer, s.buffer[0], []);
    } else {
      IdsTail(s.senders);
      ShiftOne(s.delivered, s.buffer, s.senders[0].value, Values(s.senders[1..]));
    }
  }

  lemma TryRecvKeeps<T>(s: Chan<T>, w: Id, suspended: bool)
    requires Inv(s) && w in s.known && w !in s.receivers && w !in s.fates
    ensures Inv(TryRecv(s, w, suspended))
  {
    hide SendersOk;
    if s.buffer != [] {
      AfterTakeKeeps(s);
      PumpOnce(Finish(DropHead(s), w, Got(s.buffer[0]), suspended));
    }
  }

  lemma PlaceKeeps<T>(s: Chan<T>, v: T)
    requires Inv(s) && CanSend(s)
    ensures Inv(Place(s, v))
  {
    hide SendersOk, ReceiversOk;
    if s.receivers != [] {
      FinishKeeps(s.receivers, s.known, s.fates, s.timed, Got(v));
    }
  }

  lemma CloseKeeps<T>(s: Chan<T>)
    requires Inv(s)
    ensures Inv(CloseAll(s))
  {
    forall w | w in Ids(s.senders) ensures w in s.offers {
      var i :| 0 <= i < |s.senders| && s.senders[i].id == w;
      assert s.senders[i] in s.senders;
    }
  }

  lemma SendStartKeeps<T>(s: Chan<T>, id: Id, v: T)
    requires Inv(s) && id !in s.offers
    ensures Inv(SendReady(s, id, v))
  {
    var t := s.(offers := s.offers[id := v]);
    assert Inv(t);
    if CanSend(s) {
      PlaceKeeps(t, v);
    }
  }

  lemma SendWaitKeeps<T>(s: Chan<T>, id: Id, v: T)
    requires Inv(s) && Enabled(s, SendWait(id, v))
    ensures Inv(SendSuspend(s, id, v))
  {
    hide ReceiversOk;
    if CanSend(s) {
      PlaceKeeps(s, v);
    } else if !s.closed {
      IdsAppend(s.senders, Parked(id, v));
      assert s.refused == [];
    }
  }

  lemma ExpireKeeps<T>(s: Chan<T>, w: Id, fate: Fate<T>)
    requires Inv(s) && !fate.Got?
    ensures Inv(Expire(s, w, fate))
  {
    hide SendersOk;
    WithoutMembers(s.receivers, w);
    WithoutNoDup(s.receivers, w);
  }

  lemma RecvStartKeeps<T>(s: Chan<T>, w: Id, expired: bool)
    requires Inv(s) && w !in s.known
    ensures Inv(RecvReady(s, w, expired))
  {
    hide SendersOk, TryRecv;
    TryRecvKeeps(s.(known := s.known + {w}), w, false);
  }

  lemma RecvWaitKeeps<T>(s: Chan<T>, w: Id, expired: bool, timed: bool)
    requires Inv(s) && w in s.known && w !in s.fates && w !in s.receivers
    ensures Inv(RecvSuspend(s, w, expired, timed))
  {
    hide SendersOk, TryRecv;
    TryRecvKeeps(s, w, true);
  }

  lemma TakeKeeps<T>(s: Chan<T>)
    requires Inv(s)
    ensures Inv(TakeNow(s))
  {
    if s.buffer != [] {
      hide ReceiversOk, SendersOk, Conserved;
      AfterTakeKeeps(s);
      PumpOnce(DropHead(s).(delivered := s.delivered + [s.buffer[0]]));
    }
  }

  lemma ApplyKeeps<T>(s: Chan<T>, e: Event<T>)
    requires Inv(s) && Enabled(s, e)
    ensures Inv(Apply(s, e))
  {
    hide RecvReady, RecvSuspend, TakeNow, CloseAll, Place, SendReady, SendSuspend, Expire;
    match e {
      case TrySend(v) => if CanSend(s) { PlaceKeeps(s, v); }
      case SendStart(id, v) => SendStartKeeps(s, id, v);
      case SendWait(id, v) => SendWaitKeeps(s, id, v);
      case RecvStart(w, expired) => RecvStartKeeps(s, w, expired);
      case RecvWait(w, expired, timed) => RecvWaitKeeps(s, w, expired, timed);
      case Take => TakeKeeps(s);
      case Shut => CloseKeeps(s);
      case Timer(id, failed) => ExpireKeeps(s, id, if failed then TimerFailed else TimedOut);
      case Resume =>
    }
  }

  /** Shape, conservation and distinctness hold after every run. */
  lemma {:induction false} RunsKeepInv<T>(s: Chan<T>, es: seq<Event<T>>)
    requires Inv(s) && Legal(s, es)
    ensures Inv(Run(s, es))
    decreases |es|
  {
    if es == [] {
    } else {
      ApplyKeeps(s, es[0]);
      RunsKeepInv(Apply(s, es[0]), es[1..]);
    }
  }

  /** From an empty channel on: the channel never drops, duplicates or reorders an accepted value.  Whether the caller
      it hands a value to gets hold of it is the matter of `ChannelCalls`. */
  lemma FifoConservation<T>(capacity: nat, es: seq<Event<T>>)
    requires Legal(Init(capacity), es)
    ensures var s := Run(Init(capacity), es);
            Inv(s) && s.accepted == s.delivered + s.buffer + Values(s.senders) + s.refused
  {
    assert Ids<T>([]) == [] && Values<T>([]) == [];
    RunsKeepInv(Init<T>(capacity), es);
  }

  // ---------------------------------------------------------------- the reference: one FIFO line

  /** The channel a client reasons about: one line of values and the receivers in front of it. */
  datatype Queue<+T> = Queue(line: seq<T>, waiting: seq<Id>, closed: bool, fates: map<Id, Fate<T>>, handed: seq<T>)

  function Put<T>(q: Queue<T>, v: T): Queue<T> {
    if q.waiting == [] then q.(line := q.line + [v])
    else q.(waiting := q.waiting[1..], fates := q.fates[q.waiting[0] := Got(v)], handed := q.handed + [v])
  }

  function Get<T>(q: Queue<T>, w: Id, limitOver: bool): Queue<T> {
    if q.line != [] then
      q.(line := q.line[1..], fates := q.fates[w := Got(q.line[0])], handed := q.handed + [q.line[0]])
    else if q.closed then q.(fates := q.fates[w := SawClosed])
    else if limitOver then q.(fates := q.fates[w := TimedOut])
    else q
  }

  predicate Full<T>(capacity: nat, q: Queue<T>) {
    capacity > 0 && |q.line| >= capacity
  }

  /** The capacity only decides which sends are told to wait and where a close cuts the line. */
  ghost function QueueStep<T>(capacity: nat, q: Queue<T>, e: Event<T>): Queue<T> {
    match e
    case TrySend(v) => if q.closed || Full(capacity, q) then q else Put(q, v)
    case SendStart(_, v) => if q.closed || Full(capacity, q) then q else Put(q, v)
    case SendWait(_, v) => if q.closed then q else Put(q, v)
    case RecvStart(w, expired) => Get(q, w, expired)
    case RecvWait(w, expired, _) =>
      if q.line == [] && !q.closed && !expired then q.(waiting := q.waiting + [w]) else Get(q, w, expired)
    case Take => if q.line == [] then q else q.(line := q.line[1..], handed := q.handed + [q.line[0]])
    case Shut =>
      q.(line := if Full(capacity, q) then q.line[..capacity] else q.line,
         waiting := [], closed := true, fates := q.fates + AllTo(q.waiting, SawClosed))
    case Timer(w, failed) =>
      if w !in q.waiting then q
      else q.(waiting := Without(q.waiting, w), fates := q.fates[w := if failed then TimerFailed else TimedOut])
    case Resume => q
  }

  ghost function QueueRun<T>(capacity: nat, q: Queue<T>, es: seq<Event<T>>): Queue<T>
    decreases |es|
  {
    if es == [] then q else QueueRun(capacity, QueueStep(capacity, q, es[0]), es[1..])
  }

  function Line<T>(s: Chan<T>): seq<T> {
    s.buffer + Values(s.senders)
  }

  function Abstract<T>(s: Chan<T>): Queue<T> {
    Queue(Line(s), s.receivers, s.closed, s.fates, s.delivered)
  }

  /** A take removes the head of the line, whether or not a parked value moves up. */
  lemma TakeFromLine<T>(s: Chan<T>)
    requires Shape(s) && s.buffer != []
    ensures Line(AfterTake(s)) == Line(s)[1..] && Line(s)[0] == s.buffer[0]
  {
    if s.senders != [] {
      IdsTail(s.senders);
    }
  }

  lemma RecvOnLine<T>(s: Chan<T>, w: Id, suspended: bool, expired: bool)
    requires Shape(s)
    ensures Abstract(RecvAttempt(s, w, suspended, expired)) == Get(Abstract(s), w, expired)
  {
    if s.buffer != [] {
      TakeFromLine(s);
      PumpOnce(Finish(DropHead(s), w, Got(s.buffer[0]), suspended));
    }
  }

  lemma PlaceOnLine<T>(s: Chan<T>, v: T)
    requires Shape(s) && !s.closed
    ensures CanSend(s) <==> !Full(s.capacity, Abstract(s))
    ensures CanSend(s) ==> Abstract(Place(s, v)) == Put(Abstract(s), v)
  {
  }

  lemma ParkOnLine<T>(s: Chan<T>, id: Id, v: T)
    requires Shape(s) && !s.closed && !CanSend(s)
    ensures Abstract(SendSuspend(s, id, v)) == Put(Abstract(s), v)
  {
    IdsAppend(s.senders, Parked(id, v));
  }

  lemma TakeOnLine<T>(s: Chan<T>)
    requires Shape(s)
    ensures Abstract(TakeNow(s)) == QueueStep(s.capacity, Abstract(s), Take)
    ensures TakeNow(s).capacity == s.capacity
  {
    if s.buffer != [] {
      TakeFromLine(s);
      PumpOnce(DropHead(s).(delivered := s.delivered + [s.buffer[0]]));
    }
  }

  lemma RecvKeepsCapacity<T>(s: Chan<T>, w: Id, suspended: bool, expired: bool)
    requires Shape(s)
    ensures RecvAttempt(s, w, suspended, expired).capacity == s.capacity
  {
    if s.buffer != [] {
      PumpOnce(Finish(DropHead(s), w, Got(s.buffer[0]), suspended));
    }
  }

  lemma SendRefinesQueue<T>(s: Chan<T>, e: Event<T>)
    requires Shape(s) && (e.TrySend? || e.SendStart? || e.SendWait?)
    ensures Abstract(Apply(s, e)) == QueueStep(s.capacity, Abstract(s), e)
    ensures Apply(s, e).capacity == s.capacity
  {
    hide Put;
    if !s.closed {
      match e {
        case TrySend(v) => PlaceOnLine(s, v);
        case SendStart(id, v) => PlaceOnLine(s.(offers := s.offers[id := v]), v);
        case SendWait(id, v) =>
          PlaceOnLine(s, v);
          if !CanSend(s) {
            ParkOnLine(s, id, v);
          }
      }
    }
  }

  lemma RecvRefinesQueue<T>(s: Chan<T>, e: Event<T>)
    requires Shape(s) && (e.RecvStart? || e.RecvWait?)
    ensures Abstract(Apply(s, e)) == QueueStep(s.capacity, Abstract(s), e)
    ensures Apply(s, e).capacity == s.capacity
  {
    hide RecvAttempt;
    match e {
      case RecvStart(id, expired) =>
        RecvOnLine(s.(known := s.known + {id}), id, false, expired);
        RecvKeepsCapacity(s.(known := s.known + {id}), id, false, expired);
      case RecvWait(id, expired, timed) =>
        RecvOnLine(s, id, true, expired);
        RecvKeepsCapacity(s, id, true, expired);
    }
  }

  lemma StepRefinesQueue<T>(s: Chan<T>, e: Event<T>)
    requires Inv(s) && Enabled(s, e)
    ensures Abstract(Apply(s, e)) == QueueStep(s.capacity, Abstract(s), e)
    ensures Apply(s, e).capacity == s.capacity
  {
    hide ReceiversOk, SendersOk, Conserved;
    match e {
      case Take => TakeOnLine(s);
      case Shut =>
      case Timer(_, _) =>
      case Resume =>
      case RecvStart(_, _) => RecvRefinesQueue(s, e);
      case RecvWait(_, _, _) => RecvRefinesQueue(s, e);
      case _ => SendRefinesQueue(s, e);
    }
  }

  /** Bounded buffer, parked senders, hand-over and pump together are one FIFO line, over every run. */
  lemma {:induction false} RunRefinesQueue<T>(s: Chan<T>, es: seq<Event<T>>)
    requires Inv(s) && Legal(s, es)
    ensures Abstract(Run(s, es)) == QueueRun(s.capacity, Abstract(s), es)
    decreases |es|
  {
    if es == [] {
    } else {
      StepRefinesQueue(s, es[0]);
      ApplyKeeps(s, es[0]);
      RunRefinesQueue(Apply(s, es[0]), es[1..]);
    }
  }

  // ---------------------------------------------------------------- what later steps never undo

  /** `t` comes after `s`: no fate changes, no delivery or acceptance is withdrawn, nobody in line is forgotten. */
  ghost predicate Later<T>(s: Chan<T>, t: Chan<T>) {
    && (forall w :: w in s.fates ==> w in t.fates && t.fates[w] == s.fates[w])
    && (forall id :: id in s.sendFates ==> id in t.sendFates && t.sendFates[id] == s.sendFates[id])
    && (forall id :: id in s.offers ==> id in t.offers && t.offers[id] == s.offers[id])
    && (forall w :: w in s.receivers ==> w in t.receivers || w in t.fates)
    && (forall id :: id in Ids(s.senders) ==> id in Ids(t.senders) || id in t.sendFates)
    && s.delivered <= t.delivered && s.delivered + s.buffer <= t.delivered + t.buffer
    && s.accepted <= t.accepted && (s.closed ==> t.closed)
  }

  lemma AdmitLater<T>(s: Chan<T>)
    requires Inv(s) && s.senders != []
    ensures s.senders[0].id !in s.sendFates
    ensures forall id :: id in Ids(s.senders) ==> id == s.senders[0].id || id in Ids(s.senders[1..])
  {
    IdsTail(s.senders);
    assert s.senders[0] in s.senders;
  }

  lemma TryRecvLater<T>(s: Chan<T>, w: Id, suspended: bool)
    requires Inv(s) && w in s.known && w !in s.receivers && w !in s.fates
    ensures Later(s, TryRecv(s, w, suspended))
  {
    hide ReceiversOk, SendersOk;
    if s.buffer != [] {
      PumpOnce(Finish(DropHead(s), w, Got(s.buffer[0]), suspended));
      if s.senders != [] {
        AdmitLater(s);
      }
    }
  }

  lemma PlaceLater<T>(s: Chan<T>, v: T)
    requires Inv(s) && CanSend(s)
    ensures Later(s, Place(s, v))
  {
    hide SendersOk;
    if s.receivers != [] {
      assert s.receivers == [s.receivers[0]] + s.receivers[1..];
    }
  }

  lemma CloseLater<T>(s: Chan<T>)
    requires Inv(s)
    ensures Later(s, CloseAll(s))
  {
    forall id | id in Ids(s.senders) ensures id !in s.sendFates {
      var i :| 0 <= i < |s.senders| && s.senders[i].id == id;
      assert s.senders[i] in s.senders;
    }
  }

  lemma TakeLater<T>(s: Chan<T>)
    requires Inv(s)
    ensures Later(s, TakeNow(s))
  {
    hide ReceiversOk, SendersOk;
    if s.buffer != [] {
      PumpOnce(DropHead(s).(delivered := s.delivered + [s.buffer[0]]));
      if s.senders != [] {
        AdmitLater(s);
      }
    }
  }

  lemma SendLater<T>(s: Chan<T>, id: Id, v: T)
    requires Inv(s) && id in s.offers && id !in s.sendFates && id !in Ids(s.senders)
    ensures Later(s, SendAttempt(s, id, v)) && Later(s, SendSuspend(s, id, v))
  {
    IdsAppend(s.senders, Parked(id, v));
    hide ReceiversOk, SendersOk;
    if CanSend(s) {
      PlaceLater(s, v);
    }
  }

  lemma RecvStartLater<T>(s: Chan<T>, w: Id, expired: bool)
    requires Inv(s) && w !in s.known
    ensures Later(s, RecvReady(s, w, expired))
  {
    hide SendersOk, TryRecv;
    TryRecvLater(s.(known := s.known + {w}), w, false);
  }

  lemma RecvWaitLater<T>(s: Chan<T>, w: Id, expired: bool, timed: bool)
    requires Inv(s) && w in s.known && w !in s.fates && w !in s.receivers
    ensures Later(s, RecvSuspend(s, w, expired, timed))
  {
    hide SendersOk, TryRecv;
    TryRecvLater(s, w, true);
  }

  lemma ApplyLater<T>(s: Chan<T>, e: Event<T>)
    requires Inv(s) && Enabled(s, e)
    ensures Later(s, Apply(s, e))
  {
    hide RecvReady, RecvSuspend, TakeNow, CloseAll, Place, SendReady, SendSuspend;
    match e {
      case TrySend(v) => if CanSend(s) { PlaceLater(s, v); }
      case SendStart(id, v) => SendStartLater(s, id, v);
      case SendWait(id, v) => SendLater(s, id, v);
      case RecvStart(w, expired) => RecvStartLater(s, w, expired);
      case RecvWait(w, expired, timed) => RecvWaitLater(s, w, expired, timed);
      case Take => TakeLater(s);
      case Shut => CloseLater(s);
      case Timer(id, _) => WithoutMembers(s.receivers, id);
      case Resume =>
    }
  }

  lemma SendStartLater<T>(s: Chan<T>, id: Id, v: T)
    requires Inv(s) && id !in s.offers
    ensures Later(s, SendReady(s, id, v))
  {
    var t := s.(offers := s.offers[id := v]);
    assert Inv(t) && Later(s, t);
    assert id !in Ids(s.senders) by {
      if i :| 0 <= i < |s.senders| && Ids(s.senders)[i] == id {
        assert s.senders[i] in s.senders;
      }
    }
    SendLater(t, id, v);
    LaterTrans(s, t, SendAttempt(t, id, v));
  }

  /** One outcome per waiter, for good; a value once placed stays delivered or on its way. */
  lemma {:induction false} RunLater<T>(s: Chan<T>, es: seq<Event<T>>)
    requires Inv(s) && Legal(s, es)
    ensures Later(s, Run(s, es))
    decreases |es|
  {
    if es == [] {
    } else {
      ApplyLater(s, es[0]);
      ApplyKeeps(s, es[0]);
      RunLater(Apply(s, es[0]), es[1..]);
      LaterTrans(s, Apply(s, es[0]), Run(s, es));
    }
  }

  lemma LaterTrans<T>(a: Chan<T>, b: Chan<T>, c: Chan<T>)
    requires Later(a, b) && Later(b, c)
    ensures Later(a, c)
  {
  }
}
