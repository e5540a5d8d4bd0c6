/** What left the senders: the values the channel handed out or buffered are, in order, those of the sends whose region
    succeeded, each once and no other.  `ChannelCalls` adds what the callers of these sends are told. */
module ChannelSends {
  import opened Waiters
  import opened ChannelSpec
  import opened ChannelRuns
  import ChannelWaiters

  /** Values that left the senders for good: handed out or buffered. */
  function Out<T>(s: Chan<T>): seq<T> {
    s.delivered + s.buffer
  }

  predicate IsAccepted<T>(s: Chan<T>, id: Id) {
    id in s.sendFates && s.sendFates[id] == Accepted
  }

  /** Between `s` and `t` the asynchronous sender `id` ended as accepted. */
  predicate NewlyAccepted<T>(s: Chan<T>, t: Chan<T>, id: Id) {
    IsAccepted(t, id) && !IsAccepted(s, id)
  }

  /** A send that succeeded: an asynchronous one by its id, or the region of a `send` or `try_send`. */
  datatype Success<+T> = Success(sender: Option<Id>, value: T)

  /** The send that succeeds in one region. */
  ghost function AcceptedBy<T>(s: Chan<T>, e: Event<T>): seq<Success<T>> {
    var t := Apply(s, e);
    if e.TrySend? then (if CanSend(s) then [Success(None, e.value)] else [])
    else if exists id: Id :: NewlyAccepted(s, t, id) && id in t.offers then
      var id: Id :| NewlyAccepted(s, t, id) && id in t.offers;
      [Success(Some(id), t.offers[id])]
    else []
  }

  ghost function AcceptedIn<T>(s: Chan<T>, es: seq<Event<T>>): seq<Success<T>>
    decreases |es|
  {
    if es == [] then [] else AcceptedBy(s, es[0]) + AcceptedIn(Apply(s, es[0]), es[1..])
  }

  function SentBy<T>(log: seq<Success<T>>): seq<T> {
    seq(|log|, i requires 0 <= i < |log| => log[i].value)
  }

  /** From `s` to `t`, `log` is exactly what left the senders and exactly who ended as accepted, each with the value
      it brought. */
  ghost predicate Honest<T>(s: Chan<T>, t: Chan<T>, log: seq<Success<T>>) {
    && Out(t) == Out(s) + SentBy(log)
    && (forall id: Id :: NewlyAccepted(s, t, id) ==> exists i :: 0 <= i < |log| && log[i].sender == Some(id))
    && (forall i :: 0 <= i < |log| && log[i].sender.Some? ==>
          var id := log[i].sender.value;
          NewlyAccepted(s, t, id) && id in t.offers && t.offers[id] == log[i].value)
    && (forall i, j :: 0 <= i < j < |log| && log[i].sender.Some? ==> log[i].sender != log[j].sender)
  }

  // ---------------------------------------------------------------- one region

  /** The asynchronous sender that one region admits, if any. */
  function Admitted<T>(s: Chan<T>, e: Event<T>): Option<Id> {
    match e
    case SendStart(id, _) => if !s.closed && CanSend(s) then Some(id) else None
    case SendWait(id, _) => if !s.closed && CanSend(s) then Some(id) else None
    case RecvStart(_, _) => AdmittedByTake(s)
    case RecvWait(_, _, _) => AdmittedByTake(s)
    case Take => AdmittedByTake(s)
    case _ => None
  }

  function AdmittedByTake<T>(s: Chan<T>): Option<Id> {
    if s.buffer != [] && s.senders != [] then Some(s.senders[0].id) else None
  }

  ghost predicate Admits<T>(s: Chan<T>, t: Chan<T>, who: Option<Id>) {
    forall id: Id :: NewlyAccepted(s, t, id) <==> who == Some(id)
  }

  /** What one region does to `Out` and to the fates of asynchronous senders. */
  ghost predicate Effect<T>(s: Chan<T>, t: Chan<T>, who: Option<Id>) {
    && Admits(s, t, who)
    && (if who.Some? then who.value in t.offers && Out(t) == Out(s) + [t.offers[who.value]] else Out(t) == Out(s))
  }

  lemma PlaceOut<T>(s: Chan<T>, v: T)
    requires Shape(s)
    ensures Out(Place(s, v)) == Out(s) + [v]
    ensures Place(s, v).sendFates == s.sendFates && Place(s, v).offers == s.offers
  {
  }

  lemma SendEffect<T>(s: Chan<T>, id: Id, v: T)
    requires Shape(s) && id in s.offers && s.offers[id] == v && id !in s.sendFates
    ensures Effect(s, SendAttempt(s, id, v), if !s.closed && CanSend(s) then Some(id) else None)
  {
    hide Place;
    PlaceOut(s, v);
  }

  lemma NobodyAdmitted<T>(s: Chan<T>, t: Chan<T>)
    requires t.sendFates == s.sendFates && t.delivered == s.delivered && t.buffer == s.buffer
    ensures Effect(s, t, None)
  {
  }

  /** A take hands out the head and moves the oldest parked value up, if there is one. */
  lemma TakenOut<T>(s: Chan<T>)
    requires Inv(s) && s.buffer != []
    ensures var t := AfterTake(s).(delivered := s.delivered + [s.buffer[0]]);
            Effect(s, t, AdmittedByTake(s))
  {
    hide ReceiversOk, Conserved, Effect;
    var t := AfterTake(s).(delivered := s.delivered + [s.buffer[0]]);
    assert [s.buffer[0]] + s.buffer[1..] == s.buffer;
    if s.senders == [] {
      OutMoves(s.delivered, s.buffer, []);
      NobodyMoved(s, t);
    } else {
      assert s.senders[0] in s.senders;
      OutMoves(s.delivered, s.buffer, [s.senders[0].value]);
      HeadMoved(s, t, s.senders[0].id);
    }
  }

  lemma OutMoves<T>(delivered: seq<T>, buffer: seq<T>, more: seq<T>)
    requires buffer != []
    ensures (delivered + [buffer[0]]) + (buffer[1..] + more) == (delivered + buffer) + more
    ensures (delivered + [buffer[0]]) + buffer[1..] == delivered + buffer
  {
    assert [buffer[0]] + buffer[1..] == buffer;
  }

  lemma NobodyMoved<T>(s: Chan<T>, t: Chan<T>)
    requires t.sendFates == s.sendFates && Out(t) == Out(s)
    ensures Effect(s, t, None)
  {
    hide Out;
  }

  lemma HeadMoved<T>(s: Chan<T>, t: Chan<T>, id: Id)
    requires id !in s.sendFates && t.sendFates == s.sendFates[id := Accepted]
    requires id in t.offers && Out(t) == Out(s) + [t.offers[id]]
    ensures Effect(s, t, Some(id))
  {
    hide Out;
  }

  lemma EffectOfSame<T>(s: Chan<T>, t: Chan<T>, u: Chan<T>, who: Option<Id>)
    requires Effect(s, t, who)
    requires u.sendFates == t.sendFates && u.offers == t.offers && u.delivered == t.delivered && u.buffer == t.buffer
    ensures Effect(s, u, who)
  {
  }

  lemma RecvEffect<T>(s: Chan<T>, w: Id, suspended: bool, expired: bool)
    requires Inv(s)
    ensures Effect(s, RecvAttempt(s, w, suspended, expired), AdmittedByTake(s))
  {
    hide Effect, ReceiversOk, SendersOk, Conserved;
    var t := RecvAttempt(s, w, suspended, expired);
    if s.buffer != [] {
      TakenOut(s);
      PumpOnce(Finish(DropHead(s), w, Got(s.buffer[0]), suspended));
      EffectOfSame(s, AfterTake(s).(delivered := s.delivered + [s.buffer[0]]), t, AdmittedByTake(s));
    } else {
      NobodyAdmitted(s, t);
    }
  }

  lemma TakeEffect<T>(s: Chan<T>)
    requires Inv(s)
    ensures Effect(s, TakeNow(s), AdmittedByTake(s))
  {
    hide Effect, ReceiversOk, SendersOk, Conserved;
    if s.buffer != [] {
      TakenOut(s);
      PumpOnce(DropHead(s).(delivered := s.delivered + [s.buffer[0]]));
      EffectOfSame(s, AfterTake(s).(delivered := s.delivered + [s.buffer[0]]), TakeNow(s), AdmittedByTake(s));
    } else {
      NobodyAdmitted(s, TakeNow(s));
    }
  }

  lemma CloseEffect<T>(s: Chan<T>)
    requires Inv(s)
    ensures Effect(s, CloseAll(s), None)
  {
  }

  lemma NewOffer<T>(s: Chan<T>, id: Id, v: T, t: Chan<T>, who: Option<Id>)
    requires Effect(s.(offers := s.offers[id := v]), t, who)
    ensures Effect(s, t, who)
  {
  }

  lemma NewlyKnown<T>(s: Chan<T>, w: Id, t: Chan<T>, who: Option<Id>)
    requires Effect(s.(known := s.known + {w}), t, who)
    ensures Effect(s, t, who)
  {
  }

  /** A send that is not the plain one. */
  lemma SendStepEffect<T>(s: Chan<T>, e: Event<T>)
    requires Inv(s) && Enabled(s, e) && (e.SendStart? || e.SendWait?)
    ensures Effect(s, Apply(s, e), Admitted(s, e))
  {
    hide Effect, ReceiversOk, SendersOk, Conserved, SendAttempt;
    if e.SendStart? {
      var s0 := s.(offers := s.offers[e.id := e.value]);
      ChannelWaiters.SendFatesOffered(s);
      SendEffect(s0, e.id, e.value);
      NewOffer(s, e.id, e.value, Apply(s, e), Admitted(s, e));
    } else {
      SendEffect(s, e.id, e.value);
      if !s.closed && !CanSend(s) {
        NobodyAdmitted(s, Apply(s, e));
      }
    }
  }

  lemma RecvStepEffect<T>(s: Chan<T>, e: Event<T>)
    requires Inv(s) && Enabled(s, e) && (e.RecvStart? || e.RecvWait?)
    ensures Effect(s, Apply(s, e), AdmittedByTake(s))
  {
    hide Effect, RecvAttempt;
    if e.RecvStart? {
      var s0 := s.(known := s.known + {e.id});
      ChannelWaiters.KnowReceiver(s, e.id);
      RecvEffect(s0, e.id, false, e.expired);
      NewlyKnown(s, e.id, Apply(s, e), AdmittedByTake(s));
    } else {
      RecvEffect(s, e.id, true, e.expired);
      if !(Receivable(s) || e.expired) {
        NobodyAdmitted(s, Apply(s, e));
      }
    }
  }

  lemma StepEffect<T>(s: Chan<T>, e: Event<T>)
    requires Inv(s) && Enabled(s, e) && !e.TrySend?
    ensures Effect(s, Apply(s, e), Admitted(s, e))
  {
    hide Effect, ReceiversOk, SendersOk, Conserved, RecvReady, RecvSuspend, SendReady, SendSuspend, TakeNow, CloseAll;
    match e {
      case SendStart(_, _) => SendStepEffect(s, e);
      case SendWait(_, _) => SendStepEffect(s, e);
      case RecvStart(_, _) => RecvStepEffect(s, e);
      case RecvWait(_, _, _) => RecvStepEffect(s, e);
      case Take => TakeEffect(s);
      case Shut => CloseEffect(s);
      case Timer(_, _) => NobodyAdmitted(s, Apply(s, e));
      case Resume => NobodyAdmitted(s, Apply(s, e));
    }
  }

  /** One region ends as accepted exactly the sender whose value it lets out, and at most one. */
  lemma StepIsHonest<T>(s: Chan<T>, e: Event<T>)
    requires Inv(s) && Enabled(s, e)
    ensures Honest(s, Apply(s, e), AcceptedBy(s, e))
  {
    hide Inv, Enabled, Apply;
    if e.TrySend? {
      PlainIsHonest(s, e);
    } else {
      StepEffect(s, e);
      AcceptedByIs(s, e, Admitted(s, e));
    }
  }

  lemma AcceptedByIs<T>(s: Chan<T>, e: Event<T>, who: Option<Id>)
    requires Effect(s, Apply(s, e), who) && !e.TrySend?
    ensures Honest(s, Apply(s, e), AcceptedBy(s, e))
  {
    hide Apply;
    var t := Apply(s, e);
    if who.Some? {
      assert NewlyAccepted(s, t, who.value);
      assert AcceptedBy(s, e) == [Success(who, t.offers[who.value])];
      HonestOne(s, t, who.value);
    } else {
      assert AcceptedBy(s, e) == [] && SentBy<T>([]) == [];
    }
  }

  lemma HonestOne<T>(s: Chan<T>, t: Chan<T>, id: Id)
    requires Effect(s, t, Some(id))
    ensures Honest(s, t, [Success(Some(id), t.offers[id])])
  {
    var log := [Success(Some(id), t.offers[id])];
    assert NewlyAccepted(s, t, id) && SentBy(log) == [t.offers[id]];
    assert log[0].sender == Some(id);
  }

  lemma PlainIsHonest<T>(s: Chan<T>, e: Event<T>)
    requires Inv(s) && e.TrySend?
    ensures Honest(s, Apply(s, e), AcceptedBy(s, e))
  {
    hide Place, Distinct, Conserved;
    PlaceOut(s, e.value);
  }

  // ---------------------------------------------------------------- every run

  /** The plain sends that found room, in order. */
  ghost function PlainSends<T>(s: Chan<T>, es: seq<Event<T>>): seq<T>
    decreases |es|
  {
    if es == [] then []
    else (if es[0].TrySend? && CanSend(s) then [es[0].value] else []) + PlainSends(Apply(s, es[0]), es[1..])
  }

  function PlainOf<T>(log: seq<Success<T>>): seq<T> {
    if log == [] then [] else (if log[0].sender.None? then [log[0].value] else []) + PlainOf(log[1..])
  }

  lemma {:induction false} PlainOfConcat<T>(a: seq<Success<T>>, b: seq<Success<T>>)
    ensures PlainOf(a + b) == PlainOf(a) + PlainOf(b)
  {
    if a == [] {
      assert a + b == b;
    } else {
      var head, more := if a[0].sender.None? then [a[0].value] else [], a[1..];
      assert (a + b)[0] == a[0] && (a + b)[1..] == more + b;
      PlainOfConcat(more, b);
      assert PlainOf(a + b) == head + PlainOf(more + b);
      assert head + (PlainOf(more) + PlainOf(b)) == (head + PlainOf(more)) + PlainOf(b);
    }
  }

  /** Plain sends appear in the log exactly where they found room. */
  lemma {:induction false} PlainSendsLogged<T>(s: Chan<T>, es: seq<Event<T>>)
    ensures PlainOf(AcceptedIn(s, es)) == PlainSends(s, es)
    decreases |es|
  {
    hide Apply;
    if es == [] {
    } else {
      var log := AcceptedBy(s, es[0]);
      PlainOfConcat(log, AcceptedIn(Apply(s, es[0]), es[1..]));
      assert |log| <= 1 && (|log| == 1 ==> log[1..] == []);
      PlainSendsLogged(Apply(s, es[0]), es[1..]);
    }
  }

  /** An accepted sender stays accepted, and keeps the value it brought. */
  ghost predicate Keeps<T>(s: Chan<T>, t: Chan<T>) {
    && (forall id: Id :: IsAccepted(s, id) ==> IsAccepted(t, id))
    && (forall id :: id in s.offers ==> id in t.offers && t.offers[id] == s.offers[id])
  }

  lemma LaterKeeps<T>(s: Chan<T>, t: Chan<T>)
    requires Later(s, t)
    ensures Keeps(s, t)
  {
  }

  lemma HonestThen<T>(s: Chan<T>, t: Chan<T>, u: Chan<T>, a: seq<Success<T>>, b: seq<Success<T>>)
    requires Honest(s, t, a) && Honest(t, u, b) && Keeps(s, t) && Keeps(t, u)
    ensures Honest(s, u, a + b)
  {
    var log := a + b;
    assert SentBy(log) == SentBy(a) + SentBy(b);
    forall id: Id | NewlyAccepted(s, u, id) ensures exists i :: 0 <= i < |log| && log[i].sender == Some(id) {
      if NewlyAccepted(s, t, id) {
        var i :| 0 <= i < |a| && a[i].sender == Some(id);
        assert log[i].sender == Some(id);
      } else {
        var i :| 0 <= i < |b| && b[i].sender == Some(id);
        assert log[|a| + i].sender == Some(id);
      }
    }
  }

  /** Over every run: the values handed out or buffered are, in order, those of the sends that succeeded; the
      asynchronous senders among them are exactly those that ended as accepted, each once and with its own value. */
  lemma {:induction false} RunIsHonest<T>(s: Chan<T>, es: seq<Event<T>>)
    requires Inv(s) && Legal(s, es)
    ensures Honest(s, Run(s, es), AcceptedIn(s, es))
    decreases |es|
  {
    hide Inv, Enabled, Apply, Honest, AcceptedBy, Later;
    if es == [] {
      HonestNothing(s);
    } else {
      var s1 := Apply(s, es[0]);
      StepIsHonest(s, es[0]);
      ApplyKeeps(s, es[0]);
      ApplyLater(s, es[0]);
      RunIsHonest(s1, es[1..]);
      RunLater(s1, es[1..]);
      LaterKeeps(s, s1);
      LaterKeeps(s1, Run(s1, es[1..]));
      HonestThen(s, s1, Run(s1, es[1..]), AcceptedBy(s, es[0]), AcceptedIn(s1, es[1..]));
    }
  }

  lemma HonestNothing<T>(s: Chan<T>)
    ensures Honest(s, s, [])
  {
    assert Out(s) + SentBy([]) == Out(s);
  }

  lemma NewIsKept<T>(capacity: nat)
    ensures Inv(Init<T>(capacity))
  {
    FifoConservation<T>(capacity, []);
    ChannelWaiters.RunNothing(Init<T>(capacity));
  }

  lemma HonestFromNew<T>(capacity: nat, t: Chan<T>, log: seq<Success<T>>)
    requires Honest(Init(capacity), t, log)
    ensures t.delivered + t.buffer == SentBy(log)
    ensures forall id: Id :: IsAccepted(t, id) <==> exists i :: 0 <= i < |log| && log[i].sender == Some(id)
    ensures forall i, j :: 0 <= i < j < |log| && log[i].sender.Some? ==> log[i].sender != log[j].sender
    ensures forall i :: 0 <= i < |log| && log[i].sender.Some? ==>
                          log[i].sender.value in t.offers && t.offers[log[i].sender.value] == log[i].value
  {
    var s: Chan<T> := Init(capacity);
    assert Out(s) + SentBy(log) == SentBy(log);
    assert forall id: Id :: IsAccepted(t, id) <==> NewlyAccepted(s, t, id);
  }

  /** For a new channel: the value of a send that succeeded stays in the channel or is handed out, once and in order, and
      the value of a sender that was refused or still waits does neither on its account. */
  lemma PlacedInOrder<T>(capacity: nat, es: seq<Event<T>>)
    requires Legal(Init(capacity), es)
    ensures var t, log := Run(Init(capacity), es), AcceptedIn(Init(capacity), es);
            && t.delivered + t.buffer == SentBy(log)
            && PlainOf(log) == PlainSends(Init(capacity), es)
            && (forall id: Id :: IsAccepted(t, id) <==> exists i :: 0 <= i < |log| && log[i].sender == Some(id))
            && (forall i, j :: 0 <= i < j < |log| && log[i].sender.Some? ==> log[i].sender != log[j].sender)
            && (forall i :: 0 <= i < |log| && log[i].sender.Some? ==>
                  log[i].sender.value in t.offers && t.offers[log[i].sender.value] == log[i].value)
  {
    hide Apply, Inv, Enabled, Legal, Run, AcceptedBy, Honest;
    var s: Chan<T> := Init(capacity);
    NewIsKept<T>(capacity);
    RunIsHonest(s, es);
    PlainSendsLogged(s, es);
    HonestFromNew(capacity, Run(s, es), AcceptedIn(s, es));
  }
}
