/** The message channel over plain FIFO queues: what one lock-protected region does when no dead waiter is left
    in a queue.  `MessageChannel` refines these functions; `ChannelRuns` proves what they guarantee. */
module ChannelSpec {
  import opened Waiters

  /** How a receiver ends. */
  datatype Fate<+T> = Got(value: T) | TimedOut | SawClosed | TimerFailed

  /** How an asynchronous sender ends. */
  datatype SendFate = Accepted | Refused

  /** A sender waiting for room, with the value it offers. */
  datatype Parked<+T> = Parked(id: Id, value: T)

  datatype Chan<+T> = Chan(
    capacity: nat,                 // 0: unbounded
    buffer: seq<T>,
    receivers: seq<Id>,            // active waiting receivers, oldest first
    senders: seq<Parked<T>>,       // active waiting senders, oldest first
    closed: bool,
    known: set<Id>,                // receivers that made their first attempt
    timed: set<Id>,                // receivers that waited with a timer
    fates: map<Id, Fate<T>>,       // finished receivers
    offers: map<Id, T>,            // asynchronous senders and the value each brought
    sendFates: map<Id, SendFate>,  // finished asynchronous senders
    readyReceivers: seq<Id>,       // to be resumed by the next flush
    readySenders: seq<Id>,
    resumedReceivers: seq<Id>,     // every resumption so far, inline or by a flush
    resumedSenders: seq<Id>,
    delivered: seq<T>,             // values handed out, in order
    accepted: seq<T>,              // values taken in (buffered, handed over or parked), in order
    refused: seq<T>)               // values of the senders that were parked at the close

  function Init<T>(capacity: nat): Chan<T> {
    Chan(capacity, [], [], [], false, {}, {}, map[], map[], map[], [], [], [], [], [], [], [])
  }

  function Values<T>(senders: seq<Parked<T>>): (vs: seq<T>)
    ensures |vs| == |senders|
    ensures forall i :: 0 <= i < |vs| ==> vs[i] == senders[i].value
  {
    seq(|senders|, i requires 0 <= i < |senders| => senders[i].value)
  }

  function Ids<T>(senders: seq<Parked<T>>): (ids: seq<Id>)
    ensures |ids| == |senders|
    ensures forall i :: 0 <= i < |ids| ==> ids[i] == senders[i].id
  {
    seq(|senders|, i requires 0 <= i < |senders| => senders[i].id)
  }

  predicate HasCapacity<T>(s: Chan<T>) {
    s.capacity == 0 || |s.buffer| < s.capacity
  }

  predicate CanSend<T>(s: Chan<T>) {
    !s.closed && s.senders == [] && (s.receivers != [] || HasCapacity(s))
  }

  /** A receive can finish at once. */
  predicate Receivable<T>(s: Chan<T>) {
    s.buffer != [] || s.senders != [] || s.closed
  }

  /** Ends receiver `w`; a receiver that stored its continuation is queued for resumption. */
  function Finish<T>(s: Chan<T>, w: Id, fate: Fate<T>, suspended: bool): Chan<T> {
    s.(fates := s.fates[w := fate],
       readyReceivers := if suspended then s.readyReceivers + [w] else s.readyReceivers,
       delivered := if fate.Got? then s.delivered + [fate.value] else s.delivered)
  }

  /** Gives a value to the oldest waiting receiver. */
  function HandOver<T>(s: Chan<T>, v: T): Chan<T>
    requires s.receivers != []
  {
    Finish(s.(receivers := s.receivers[1..]), s.receivers[0], Got(v), true)
  }

  /** Takes the oldest parked sender off its queue, as accepted. */
  function Admit<T>(s: Chan<T>): Chan<T>
    requires s.senders != []
  {
    s.(senders := s.senders[1..],
       sendFates := s.sendFates[s.senders[0].id := Accepted],
       readySenders := s.readySenders + [s.senders[0].id])
  }

  function DropHead<T>(s: Chan<T>): Chan<T>
    requires s.buffer != []
  {
    s.(buffer := s.buffer[1..])
  }

  /** The value of a send that need not wait. */
  function Place<T>(s: Chan<T>, v: T): Chan<T> {
    var t := s.(accepted := s.accepted + [v]);
    if s.receivers != [] then HandOver(t, v) else t.(buffer := s.buffer + [v])
  }

  /** Serves waiting receivers from the buffer, then from parked senders. */
  function Serve<T>(s: Chan<T>): Chan<T>
    decreases |s.receivers|
  {
    if s.receivers == [] then s
    else if s.buffer != [] || s.senders != [] then Serve(ServeOne(s))
    else s
  }

  function ServeOne<T>(s: Chan<T>): Chan<T>
    requires s.receivers != [] && (s.buffer != [] || s.senders != [])
  {
    if s.buffer != [] then HandOver(DropHead(s), s.buffer[0])
    else Admit(HandOver(s, s.senders[0].value))
  }

  /** Moves parked values into free buffer slots. */
  function Refill<T>(s: Chan<T>): Chan<T>
    decreases |s.senders|
  {
    if HasCapacity(s) && s.senders != [] then Refill(RefillOne(s)) else s
  }

  function RefillOne<T>(s: Chan<T>): Chan<T>
    requires s.senders != []
  {
    Admit(s.(buffer := s.buffer + [s.senders[0].value]))
  }

  function Pump<T>(s: Chan<T>): Chan<T> {
    Refill(Serve(s))
  }

  /** The flags a pump raises: whether it queued anyone for resumption, and whether it tells blocked senders. */
  predicate Serves<T>(s: Chan<T>) {
    s.receivers != [] && (s.buffer != [] || s.senders != [])
  }

  predicate Refills<T>(s: Chan<T>) {
    HasCapacity(s) && s.senders != []
  }

  predicate PumpWakes<T>(s: Chan<T>) {
    Serves(s) || Refills(Serve(s))
  }

  predicate PumpNotifies<T>(s: Chan<T>) {
    s.receivers != [] && s.buffer != []
  }

  /** An attempt of receiver `w` to finish at once. */
  function TryRecv<T>(s: Chan<T>, w: Id, suspended: bool): Chan<T> {
    if s.buffer != [] then Pump(Finish(DropHead(s), w, Got(s.buffer[0]), suspended))
    else if s.senders != [] then Admit(Finish(s, w, Got(s.senders[0].value), suspended))
    else if s.closed then Finish(s, w, SawClosed, suspended)
    else s
  }

  predicate TryRecvWakes<T>(s: Chan<T>) {
    if s.buffer != [] then PumpWakes(DropHead(s)) else s.senders != []
  }

  predicate TryRecvNotifies<T>(s: Chan<T>) {
    s.buffer != []
  }

  /** The non-waiting receive, whose value goes to the caller and not to a waiter. */
  function TakeNow<T>(s: Chan<T>): Chan<T> {
    if s.buffer != [] then Pump(DropHead(s).(delivered := s.delivered + [s.buffer[0]]))
    else if s.senders != [] then Admit(s.(delivered := s.delivered + [s.senders[0].value]))
    else s
  }

  predicate TakeNowNotifies<T>(s: Chan<T>) {
    if s.buffer != [] then PumpNotifies(DropHead(s)) else s.senders != []
  }

  function AllTo<X>(ids: seq<Id>, x: X): map<Id, X> {
    map w | w in ids :: x
  }

  /** Ends every waiter with closed and keeps the buffer for draining. */
  function CloseAll<T>(s: Chan<T>): Chan<T> {
    s.(closed := true,
       receivers := [],
       senders := [],
       fates := s.fates + AllTo(s.receivers, SawClosed),
       sendFates := s.sendFates + AllTo(Ids(s.senders), Refused),
       readyReceivers := s.readyReceivers + s.receivers,
       readySenders := s.readySenders + Ids(s.senders),
       refused := s.refused + Values(s.senders))
  }

  /** The timer of receiver `w` reports `fate`; without effect on a receiver that no longer waits. */
  ghost function Expire<T>(s: Chan<T>, w: Id, fate: Fate<T>): Chan<T> {
    if w in s.receivers then Finish(s.(receivers := Without(s.receivers, w)), w, fate, true) else s
  }

  /** Resumes everyone queued. */
  function Flush<T>(s: Chan<T>): Chan<T> {
    s.(readyReceivers := [],
       readySenders := [],
       resumedReceivers := s.resumedReceivers + s.readyReceivers,
       resumedSenders := s.resumedSenders + s.readySenders)
  }

  /** The receiver or sender goes on without having been suspended. */
  function ContinueReceiver<T>(s: Chan<T>, w: Id): Chan<T> {
    s.(resumedReceivers := s.resumedReceivers + [w])
  }

  function ContinueSender<T>(s: Chan<T>, w: Id): Chan<T> {
    s.(resumedSenders := s.resumedSenders + [w])
  }

  /** What both phases of a receive try first; `expired`: a time limit was given and is not positive. */
  function RecvAttempt<T>(s: Chan<T>, w: Id, suspended: bool, expired: bool): Chan<T> {
    if Receivable(s) then ContinueReceiver(TryRecv(s, w, suspended), w)
    else if expired then ContinueReceiver(Finish(s, w, TimedOut, false), w)
    else s
  }

  /** `await_ready` of a receive. */
  function RecvReady<T>(s: Chan<T>, w: Id, expired: bool): Chan<T> {
    RecvAttempt(s.(known := s.known + {w}), w, false, expired)
  }

  /** `await_suspend` of a receive: the continuation is stored before the second attempt. */
  function RecvSuspend<T>(s: Chan<T>, w: Id, expired: bool, timed: bool): Chan<T> {
    if Receivable(s) || expired then RecvAttempt(s, w, true, expired)
    else s.(receivers := s.receivers + [w], timed := if timed then s.timed + {w} else s.timed)
  }

  /** What both phases of an asynchronous send try first. */
  function SendAttempt<T>(s: Chan<T>, id: Id, v: T): Chan<T> {
    if s.closed then ContinueSender(s.(sendFates := s.sendFates[id := Refused]), id)
    else if CanSend(s) then ContinueSender(Place(s, v).(sendFates := s.sendFates[id := Accepted]), id)
    else s
  }

  /** `await_ready` of an asynchronous send. */
  function SendReady<T>(s: Chan<T>, id: Id, v: T): Chan<T> {
    SendAttempt(s.(offers := s.offers[id := v]), id, v)
  }

  /** `await_suspend` of an asynchronous send. */
  function SendSuspend<T>(s: Chan<T>, id: Id, v: T): Chan<T> {
    if s.closed || CanSend(s) then SendAttempt(s, id, v)
    else s.(senders := s.senders + [Parked(id, v)], accepted := s.accepted + [v])
  }

  lemma AllToHead<X>(m: map<Id, X>, ids: seq<Id>, x: X)
    requires ids != []
    ensures m[ids[0] := x] + AllTo(ids[1..], x) == m + AllTo(ids, x)
  {
    assert ids == [ids[0]] + ids[1..];
  }

  function CloseReceiver<T>(s: Chan<T>): Chan<T>
    requires s.receivers != []
  {
    Finish(s.(receivers := s.receivers[1..]), s.receivers[0], SawClosed, true)
  }

  function CloseSender<T>(s: Chan<T>): Chan<T>
    requires s.senders != []
  {
    s.(senders := s.senders[1..],
       sendFates := s.sendFates[s.senders[0].id := Refused],
       readySenders := s.readySenders + [s.senders[0].id],
       refused := s.refused + [s.senders[0].value])
  }

  lemma IdsTail<T>(senders: seq<Parked<T>>)
    requires senders != []
    ensures Ids(senders) == [senders[0].id] + Ids(senders[1..])
    ensures Values(senders) == [senders[0].value] + Values(senders[1..])
  {
  }

  /** Closing may end the waiters one at a time. */
  lemma CloseOneReceiver<T>(s: Chan<T>)
    requires s.receivers != []
    ensures CloseAll(CloseReceiver(s)) == CloseAll(s)
  {
    hide AllTo;
    AllToHead(s.fates, s.receivers, SawClosed);
    assert s.readyReceivers + [s.receivers[0]] + s.receivers[1..] == s.readyReceivers + s.receivers;
  }

  lemma CloseOneSender<T>(s: Chan<T>)
    requires s.senders != []
    ensures CloseAll(CloseSender(s)) == CloseAll(s)
  {
    hide AllTo, Ids, Values;
    var head, tail := s.senders[0], s.senders[1..];
    IdsTail(s.senders);
    assert Ids(s.senders)[1..] == Ids(tail);
    AllToHead(s.sendFates, Ids(s.senders), Refused);
    assert s.readySenders + [head.id] + Ids(tail) == s.readySenders + ([head.id] + Ids(tail));
    assert s.refused + [head.value] + Values(tail) == s.refused + ([head.value] + Values(tail));
  }

  lemma CloseNothing<T>(s: Chan<T>)
    requires s.closed && s.receivers == [] && s.senders == []
    ensures CloseAll(s) == s
  {
  }
}
