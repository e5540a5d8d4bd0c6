/** Receives with a time limit: who has a timer, what it does, and who ends timed out. */
module ChannelTimers {
  import opened Waiters
  import opened ChannelSpec
  import opened ChannelRuns
  import ChannelWaiters

  /** In the events of a run, receiver `w` began to wait with a time limit that was not over. */
  predicate AskedTimed<T>(es: seq<Event<T>>, w: Id) {
    exists i :: 0 <= i < |es| && es[i].RecvWait? && es[i].id == w && es[i].timed
  }

  /** In the events of a run, receiver `w` came with a time limit that was over. */
  predicate AskedExpired<T>(es: seq<Event<T>>, w: Id) {
    exists i :: 0 <= i < |es| && (es[i].RecvStart? || es[i].RecvWait?) && es[i].id == w && es[i].expired
  }

  lemma AskedSplit<T>(es: seq<Event<T>>, w: Id)
    requires es != []
    ensures AskedTimed(es, w) <==> (es[0].RecvWait? && es[0].id == w && es[0].timed) || AskedTimed(es[1..], w)
    ensures AskedExpired(es, w) <==>
            ((es[0].RecvStart? || es[0].RecvWait?) && es[0].id == w && es[0].expired) || AskedExpired(es[1..], w)
  {
    assert forall i :: 0 <= i < |es| - 1 ==> es[1..][i] == es[i + 1];
    if i :| 1 <= i < |es| && es[i].RecvWait? && es[i].id == w && es[i].timed {
      assert es[1..][i - 1] == es[i];
    }
    if i :| 1 <= i < |es| && (es[i].RecvStart? || es[i].RecvWait?) && es[i].id == w && es[i].expired {
      assert es[1..][i - 1] == es[i];
    }
  }

  lemma RecvKeepsTimed<T>(s: Chan<T>, w: Id, suspended: bool, expired: bool)
    requires Shape(s)
    ensures RecvAttempt(s, w, suspended, expired).timed == s.timed
  {
    if s.buffer != [] {
      PumpOnce(Finish(DropHead(s), w, Got(s.buffer[0]), suspended));
    }
  }

  lemma TakeKeepsTimed<T>(s: Chan<T>)
    requires Shape(s)
    ensures TakeNow(s).timed == s.timed
  {
    if s.buffer != [] {
      PumpOnce(DropHead(s).(delivered := s.delivered + [s.buffer[0]]));
    }
  }

  /** Only a receiver that goes on to wait gets a timer, and only it. */
  lemma TimedStep<T>(s: Chan<T>, e: Event<T>, w: Id)
    requires Inv(s) && Enabled(s, e)
    ensures var t, asks := Apply(s, e), e.RecvWait? && e.id == w && e.timed;
            && (w in t.timed ==> w in s.timed || asks)
            && (w in s.timed ==> w in t.timed)
            && (asks ==> w in t.timed || w in t.fates)
  {
    hide ReceiversOk, SendersOk, Conserved, RecvAttempt, TakeNow;
    match e {
      case RecvStart(id, expired) => RecvKeepsTimed(s.(known := s.known + {id}), id, false, expired);
      case RecvWait(id, expired, _) =>
        RecvKeepsTimed(s, id, true, expired);
        if Receivable(s) || expired {
          ChannelWaiters.RecvEffect(s, id, true, expired);
        }
      case Take => TakeKeepsTimed(s);
      case _ =>
    }
  }

  /** A receiver newly ended without a value came late, or its timer reported. */
  lemma EndedByTimer<T>(s: Chan<T>, e: Event<T>, w: Id)
    requires Inv(s) && Enabled(s, e) && w !in s.fates && w in Apply(s, e).fates
    ensures var fate := Apply(s, e).fates[w];
            && (fate == TimedOut ==>
                  e == Timer(w, false) || ((e.RecvStart? || e.RecvWait?) && e.id == w && e.expired))
            && (fate == TimerFailed ==> e == Timer(w, true))
  {
    StepRefinesQueue(s, e);
    hide Apply, Inv, Enabled;
    LineTimer(Abstract(s), s.capacity, e, w);
  }

  lemma LineTimer<T>(q: Queue<T>, capacity: nat, e: Event<T>, w: Id)
    requires w !in q.fates && w in QueueStep(capacity, q, e).fates
    ensures var fate := QueueStep(capacity, q, e).fates[w];
            && (fate == TimedOut ==>
                  e == Timer(w, false) || ((e.RecvStart? || e.RecvWait?) && e.id == w && e.expired))
            && (fate == TimerFailed ==> e == Timer(w, true))
  {
  }

  /** From `s` on: who has a timer, and who ended by one. */
  ghost predicate Timed<T>(s: Chan<T>, t: Chan<T>, es: seq<Event<T>>, w: Id) {
    && (w in t.timed ==> w in s.timed || AskedTimed(es, w))
    && (w in s.timed ==> w in t.timed)
    && (w in t.receivers && AskedTimed(es, w) ==> w in t.timed)
    && (w in t.fates && w !in s.fates && t.fates[w] == TimedOut ==>
          AskedExpired(es, w) || (Timer(w, false) in es && (w in s.timed || AskedTimed(es, w))))
    && (w in t.fates && w !in s.fates && t.fates[w] == TimerFailed ==>
          Timer(w, true) in es && (w in s.timed || AskedTimed(es, w)))
  }

  /** A finished receiver does not wait. */
  lemma FinishedGone<T>(s: Chan<T>, t: Chan<T>, w: Id)
    requires Inv(t) && Later(s, t) && w in s.fates
    ensures w !in t.receivers && w in t.fates && t.fates[w] == s.fates[w]
  {
  }

  lemma TimerIsTimed<T>(s: Chan<T>, w: Id, failed: bool)
    requires Enabled(s, Timer(w, failed))
    ensures w in s.timed
  {
  }

  lemma {:induction false} RunTimed<T>(s: Chan<T>, es: seq<Event<T>>, w: Id)
    requires Inv(s) && Legal(s, es)
    ensures Timed(s, Run(s, es), es, w)
    decreases |es|
  {
    hide Apply, Inv, Enabled, Later, AskedTimed, AskedExpired;
    if es == [] {
      NoneAsked<T>(w);
    } else {
      var s1, t := Apply(s, es[0]), Run(s, es);
      ApplyKeeps(s, es[0]);
      RunsKeepInv(s1, es[1..]);
      RunLater(s1, es[1..]);
      RunTimed(s1, es[1..], w);
      AskedSplit(es, w);
      assert es == [es[0]] + es[1..];
      TimedStep(s, es[0], w);
      if w in s1.fates {
        FinishedGone(s1, t, w);
        if w !in s.fates {
          EndedByTimer(s, es[0], w);
          if es[0].Timer? && es[0].id == w {
            TimerIsTimed(s, w, es[0].failed);
          }
        }
      }
    }
  }

  lemma NoneAsked<T>(w: Id)
    ensures !AskedTimed<T>([], w) && !AskedExpired<T>([], w)
  {
  }

  /** Over every run of a new channel: a receiver that waits can be timed out exactly if it asked for that, its timer then
      ends it, and nobody is timed out, or told that a timer failed, who did not ask for a limit. */
  lemma TimersOverRuns<T>(capacity: nat, es: seq<Event<T>>, w: Id, failed: bool)
    requires Legal(Init(capacity), es)
    ensures var t := Run(Init(capacity), es);
            && (w in t.receivers ==> (Enabled(t, Timer(w, failed)) <==> AskedTimed(es, w)))
            && (w in t.receivers ==>
                  var u := Apply(t, Timer(w, failed));
                  w !in u.receivers && w in u.fates && u.fates[w] == if failed then TimerFailed else TimedOut)
            && (w in t.fates && t.fates[w] == TimedOut ==>
                  AskedExpired(es, w) || (AskedTimed(es, w) && Timer(w, false) in es))
            && (w in t.fates && t.fates[w] == TimerFailed ==> AskedTimed(es, w) && Timer(w, true) in es)
  {
    hide Inv, Legal, Run, AskedTimed, AskedExpired;
    FifoConservation<T>(capacity, es);
    NewInv<T>(capacity);
    RunTimed(Init(capacity), es, w);
    WithoutMembers(Run(Init<T>(capacity), es).receivers, w);
  }

  lemma NewInv<T>(capacity: nat)
    ensures Inv(Init<T>(capacity))
  {
    FifoConservation<T>(capacity, []);
    ChannelWaiters.RunNothing(Init<T>(capacity));
  }

  /** A timed receive whose timer fires ends timed out. */
  lemma TimedReceiveExample()
    ensures var es: seq<Event<int>> := [RecvStart(0, false), RecvWait(0, false, true), Timer(0, false)];
            Legal(Init<int>(0), es) && Run(Init<int>(0), es).fates == map[0 := TimedOut]
  {
    hide Run, Legal;
    var a: Event<int>, b: Event<int>, c: Event<int> := RecvStart(0, false), RecvWait(0, false, true), Timer(0, false);
    var s1 := Init<int>(0).(known := {0});
    var s2 := s1.(receivers := [0], timed := {0});
    assert Apply(Init<int>(0), a) == s1;
    assert Apply(s1, b) == s2;
    ChannelWaiters.RunNothing(Apply(s2, c));
    ChannelWaiters.RunStep(s2, [c]);
    ChannelWaiters.RunStep(s1, [b, c]);
    ChannelWaiters.RunStep(Init<int>(0), [a, b, c]);
    assert [c][1..] == [] && [b, c][1..] == [c] && [a, b, c][1..] == [b, c];
  }
}
