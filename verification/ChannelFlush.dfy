/** A flush resumes its waiters one after the other, and each may use the channel before the next is resumed, flushing
    again included.  It is proved to act as if all were resumed at the moment the ready queues were taken; only the
    order in which resumptions are logged differs. */
module ChannelFlush {
  import opened Waiters
  import opened ChannelSpec
  import opened ChannelRuns
  import ChannelWaiters
  import MC = MessageChannel

  // ---------------------------------------------------------------- the logs of resumptions decide nothing

  function WithLogs<T>(s: Chan<T>, rs: seq<Id>, ss: seq<Id>): Chan<T> {
    s.(resumedReceivers := rs, resumedSenders := ss)
  }

  /** `t` is `s` with the resumptions `rs` and `ss` logged in addition, in any order. */
  ghost predicate Ahead<T>(s: Chan<T>, t: Chan<T>, rs: multiset<Id>, ss: multiset<Id>) {
    && t == WithLogs(s, t.resumedReceivers, t.resumedSenders)
    && multiset(t.resumedReceivers) == multiset(s.resumedReceivers) + rs
    && multiset(t.resumedSenders) == multiset(s.resumedSenders) + ss
  }

  /** Equal up to the order in which resumptions were logged. */
  ghost predicate Alike<T>(s: Chan<T>, t: Chan<T>) {
    Ahead(s, t, multiset{}, multiset{})
  }

  lemma {:induction false} ServeIgnoresLogs<T>(s: Chan<T>, rs: seq<Id>, ss: seq<Id>)
    ensures Serve(WithLogs(s, rs, ss)) == WithLogs(Serve(s), rs, ss)
    decreases |s.receivers|
  {
    if s.receivers == [] || (s.buffer == [] && s.senders == []) {
    } else {
      assert ServeOne(WithLogs(s, rs, ss)) == WithLogs(ServeOne(s), rs, ss);
      ServeIgnoresLogs(ServeOne(s), rs, ss);
    }
  }

  lemma {:induction false} RefillIgnoresLogs<T>(s: Chan<T>, rs: seq<Id>, ss: seq<Id>)
    ensures Refill(WithLogs(s, rs, ss)) == WithLogs(Refill(s), rs, ss)
    decreases |s.senders|
  {
    if !HasCapacity(s) || s.senders == [] {
    } else {
      assert RefillOne(WithLogs(s, rs, ss)) == WithLogs(RefillOne(s), rs, ss);
      RefillIgnoresLogs(RefillOne(s), rs, ss);
    }
  }

  lemma {:induction false} ServeLogsNothing<T>(s: Chan<T>)
    ensures Serve(s).resumedReceivers == s.resumedReceivers && Serve(s).resumedSenders == s.resumedSenders
    decreases |s.receivers|
  {
    if s.receivers == [] || (s.buffer == [] && s.senders == []) {
    } else {
      ServeLogsNothing(ServeOne(s));
    }
  }

  lemma {:induction false} RefillLogsNothing<T>(s: Chan<T>)
    ensures Refill(s).resumedReceivers == s.resumedReceivers && Refill(s).resumedSenders == s.resumedSenders
    decreases |s.senders|
  {
    if !HasCapacity(s) || s.senders == [] {
    } else {
      RefillLogsNothing(RefillOne(s));
    }
  }

  lemma PumpLogs<T>(s: Chan<T>, rs: seq<Id>, ss: seq<Id>)
    ensures Pump(WithLogs(s, rs, ss)) == WithLogs(Pump(s), rs, ss)
    ensures Pump(s).resumedReceivers == s.resumedReceivers && Pump(s).resumedSenders == s.resumedSenders
  {
    hide Serve, Refill;
    ServeIgnoresLogs(s, rs, ss);
    RefillIgnoresLogs(Serve(s), rs, ss);
    ServeLogsNothing(s);
    RefillLogsNothing(Serve(s));
  }

  /** What one region logs. */
  function LogsReceivers<T>(s: Chan<T>, e: Event<T>): seq<Id> {
    match e
    case RecvStart(w, expired) => if Receivable(s) || expired then [w] else []
    case RecvWait(w, expired, _) => if Receivable(s) || expired then [w] else []
    case Resume => s.readyReceivers
    case _ => []
  }

  function LogsSenders<T>(s: Chan<T>, e: Event<T>): seq<Id> {
    match e
    case SendStart(id, _) => if s.closed || CanSend(s) then [id] else []
    case SendWait(id, _) => if s.closed || CanSend(s) then [id] else []
    case Resume => s.readySenders
    case _ => []
  }

  lemma TryRecvLogs<T>(s: Chan<T>, w: Id, suspended: bool, rs: seq<Id>, ss: seq<Id>)
    ensures TryRecv(WithLogs(s, rs, ss), w, suspended) == WithLogs(TryRecv(s, w, suspended), rs, ss)
    ensures TryRecv(s, w, suspended).resumedReceivers == s.resumedReceivers
    ensures TryRecv(s, w, suspended).resumedSenders == s.resumedSenders
  {
    hide Pump;
    if s.buffer != [] {
      PumpLogs(Finish(DropHead(s), w, Got(s.buffer[0]), suspended), rs, ss);
    }
  }

  lemma RecvLogs<T>(s: Chan<T>, w: Id, suspended: bool, expired: bool, rs: seq<Id>, ss: seq<Id>)
    ensures var more := if Receivable(s) || expired then [w] else [];
            && RecvAttempt(WithLogs(s, rs, ss), w, suspended, expired)
               == WithLogs(RecvAttempt(s, w, suspended, expired), rs + more, ss)
            && RecvAttempt(s, w, suspended, expired).resumedReceivers == s.resumedReceivers + more
            && RecvAttempt(s, w, suspended, expired).resumedSenders == s.resumedSenders
  {
    hide TryRecv;
    TryRecvLogs(s, w, suspended, rs, ss);
  }

  lemma TakeLogs<T>(s: Chan<T>, rs: seq<Id>, ss: seq<Id>)
    ensures TakeNow(WithLogs(s, rs, ss)) == WithLogs(TakeNow(s), rs, ss)
    ensures TakeNow(s).resumedReceivers == s.resumedReceivers && TakeNow(s).resumedSenders == s.resumedSenders
  {
    hide Pump;
    if s.buffer != [] {
      PumpLogs(DropHead(s).(delivered := s.delivered + [s.buffer[0]]), rs, ss);
    }
  }

  lemma FinishLogs<T>(s: Chan<T>, w: Id, fate: Fate<T>, rs: seq<Id>, ss: seq<Id>)
    ensures Finish(WithLogs(s, rs, ss), w, fate, true) == WithLogs(Finish(s, w, fate, true), rs, ss)
    ensures Finish(s, w, fate, true).resumedReceivers == s.resumedReceivers
    ensures Finish(s, w, fate, true).resumedSenders == s.resumedSenders
  {
  }

  lemma PlaceLogs<T>(s: Chan<T>, v: T, rs: seq<Id>, ss: seq<Id>)
    ensures Place(WithLogs(s, rs, ss), v) == WithLogs(Place(s, v), rs, ss)
    ensures Place(s, v).resumedReceivers == s.resumedReceivers && Place(s, v).resumedSenders == s.resumedSenders
  {
    hide Finish;
    var t := s.(accepted := s.accepted + [v]);
    assert WithLogs(s, rs, ss).(accepted := s.accepted + [v]) == WithLogs(t, rs, ss);
    if s.receivers != [] {
      FinishLogs(t.(receivers := s.receivers[1..]), s.receivers[0], Got(v), rs, ss);
    }
  }

  lemma SendLogs<T>(s: Chan<T>, id: Id, v: T, rs: seq<Id>, ss: seq<Id>)
    ensures var more := if s.closed || CanSend(s) then [id] else [];
            && SendAttempt(WithLogs(s, rs, ss), id, v) == WithLogs(SendAttempt(s, id, v), rs, ss + more)
            && SendAttempt(s, id, v).resumedReceivers == s.resumedReceivers
            && SendAttempt(s, id, v).resumedSenders == s.resumedSenders + more
  {
    hide Place;
    PlaceLogs(s, v, rs, ss);
  }

  /** A region does the same whatever was logged before it. */
  ghost predicate LogsApart<T>(s: Chan<T>, e: Event<T>, rs: seq<Id>, ss: seq<Id>) {
    && Apply(WithLogs(s, rs, ss), e)
       == WithLogs(Apply(s, e), rs + LogsReceivers(s, e), ss + LogsSenders(s, e))
    && Apply(s, e).resumedReceivers == s.resumedReceivers + LogsReceivers(s, e)
    && Apply(s, e).resumedSenders == s.resumedSenders + LogsSenders(s, e)
  }

  lemma RecvLogsApart<T>(s: Chan<T>, e: Event<T>, rs: seq<Id>, ss: seq<Id>)
    requires e.RecvStart? || e.RecvWait?
    ensures LogsApart(s, e, rs, ss)
  {
    hide RecvAttempt;
    if e.RecvStart? {
      var s0 := s.(known := s.known + {e.id});
      assert WithLogs(s, rs, ss).(known := s.known + {e.id}) == WithLogs(s0, rs, ss);
      RecvLogs(s0, e.id, false, e.expired, rs, ss);
    } else {
      RecvLogs(s, e.id, true, e.expired, rs, ss);
    }
  }

  lemma SendLogsApart<T>(s: Chan<T>, e: Event<T>, rs: seq<Id>, ss: seq<Id>)
    requires e.SendStart? || e.SendWait?
    ensures LogsApart(s, e, rs, ss)
  {
    hide SendAttempt;
    if e.SendStart? {
      var s0 := s.(offers := s.offers[e.id := e.value]);
      assert WithLogs(s, rs, ss).(offers := s.offers[e.id := e.value]) == WithLogs(s0, rs, ss);
      SendLogs(s0, e.id, e.value, rs, ss);
    } else {
      SendLogs(s, e.id, e.value, rs, ss);
    }
  }

  lemma PlainSendLogsApart<T>(s: Chan<T>, v: T, rs: seq<Id>, ss: seq<Id>)
    ensures LogsApart(s, TrySend(v), rs, ss)
  {
    hide Place;
    PlaceLogs(s, v, rs, ss);
  }

  lemma CloseLogs<T>(s: Chan<T>, rs: seq<Id>, ss: seq<Id>)
    ensures CloseAll(WithLogs(s, rs, ss)) == WithLogs(CloseAll(s), rs, ss)
    ensures CloseAll(s).resumedReceivers == s.resumedReceivers && CloseAll(s).resumedSenders == s.resumedSenders
  {
    hide AllTo, Ids, Values;
  }

  lemma ShutLogsApart<T>(s: Chan<T>, rs: seq<Id>, ss: seq<Id>)
    ensures LogsApart(s, Shut, rs, ss)
  {
    hide CloseAll;
    CloseLogs(s, rs, ss);
  }

  lemma ExpireLogs<T>(s: Chan<T>, w: Id, fate: Fate<T>, rs: seq<Id>, ss: seq<Id>)
    ensures Expire(WithLogs(s, rs, ss), w, fate) == WithLogs(Expire(s, w, fate), rs, ss)
    ensures Expire(s, w, fate).resumedReceivers == s.resumedReceivers
    ensures Expire(s, w, fate).resumedSenders == s.resumedSenders
  {
  }

  lemma TimerLogsApart<T>(s: Chan<T>, w: Id, failed: bool, rs: seq<Id>, ss: seq<Id>)
    ensures LogsApart(s, Timer(w, failed), rs, ss)
  {
    hide Expire;
    ExpireLogs(s, w, if failed then TimerFailed else TimedOut, rs, ss);
  }

  lemma FlushLogsApart<T>(s: Chan<T>, rs: seq<Id>, ss: seq<Id>)
    ensures LogsApart(s, Resume, rs, ss)
  {
  }

  lemma ApplyLogsApart<T>(s: Chan<T>, e: Event<T>, rs: seq<Id>, ss: seq<Id>)
    ensures LogsApart(s, e, rs, ss)
  {
    hide LogsApart;
    match e {
      case RecvStart(_, _) => RecvLogsApart(s, e, rs, ss);
      case RecvWait(_, _, _) => RecvLogsApart(s, e, rs, ss);
      case SendStart(_, _) => SendLogsApart(s, e, rs, ss);
      case SendWait(_, _) => SendLogsApart(s, e, rs, ss);
      case Take => TakeLogsApart(s, rs, ss);
      case TrySend(v) => PlainSendLogsApart(s, v, rs, ss);
      case Shut => ShutLogsApart(s, rs, ss);
      case Timer(w, failed) => TimerLogsApart(s, w, failed, rs, ss);
      case Resume => FlushLogsApart(s, rs, ss);
    }
  }

  lemma TakeLogsApart<T>(s: Chan<T>, rs: seq<Id>, ss: seq<Id>)
    ensures LogsApart(s, Take, rs, ss)
  {
    hide TakeNow;
    TakeLogs(s, rs, ss);
  }

  lemma ApplyAhead<T>(s: Chan<T>, t: Chan<T>, e: Event<T>, rs: multiset<Id>, ss: multiset<Id>)
    requires Ahead(s, t, rs, ss)
    ensures Enabled(s, e) <==> Enabled(t, e)
    ensures Ahead(Apply(s, e), Apply(t, e), rs, ss)
  {
    hide Apply;
    ApplyLogsApart(s, e, t.resumedReceivers, t.resumedSenders);
  }

  lemma {:induction false} RunAhead<T>(s: Chan<T>, t: Chan<T>, es: seq<Event<T>>, rs: multiset<Id>, ss: multiset<Id>)
    requires Ahead(s, t, rs, ss)
    ensures Legal(s, es) <==> Legal(t, es)
    ensures Ahead(Run(s, es), Run(t, es), rs, ss)
    decreases |es|
  {
    hide Apply, Enabled, Ahead;
    if es == [] {
    } else {
      ApplyAhead(s, t, es[0], rs, ss);
      RunAhead(Apply(s, es[0]), Apply(t, es[0]), es[1..], rs, ss);
    }
  }

  lemma AheadTrans<T>(s: Chan<T>, t: Chan<T>, u: Chan<T>, rs: multiset<Id>, ss: multiset<Id>)
    requires Alike(s, t) && Ahead(t, u, rs, ss)
    ensures Ahead(s, u, rs, ss)
  {
  }

  /** What the code of a resumed waiter adds to a flush that still has `rs` and `ss` to resume. */
  lemma BlockAhead<T>(v: Chan<T>, v': Chan<T>, t: Chan<T>, block: seq<Event<T>>, rs: multiset<Id>, ss: multiset<Id>)
    requires Ahead(v, t, rs, ss) && Legal(v, block) && Alike(v', Run(v, block))
    ensures Legal(t, block) && Ahead(v', Run(t, block), rs, ss)
  {
    hide Ahead, Run, Legal;
    RunAhead(v, t, block, rs, ss);
    AheadTrans(v', Run(v, block), Run(t, block), rs, ss);
  }

  // ---------------------------------------------------------------- code that uses the channel

  /** What code does with a channel, one locked region after another.  In `Flush(code)` the k-th waiter it resumes does
      `code[k]` before the next one is resumed. */
  datatype Action<+T> =
    | Send(value: T, loopThread: bool)
    | AsyncSend(id: Id, value: T)
    | AsyncSendWait(id: Id)
    | Receive(id: Id, limit: MC.Limit)
    | ReceiveWait(id: Id, limit: MC.Limit)
    | TakeOne
    | CloseIt
    | TimerOf(id: Id, failed: bool)
    | Flush(code: seq<Block<T>>)

  datatype Block<+T> = Block(actions: seq<Action<T>>)

  function Size<T>(actions: seq<Action<T>>): nat {
    if actions == [] then 0 else SizeOf(actions[0]) + Size(actions[1..])
  }

  function SizeOf<T>(a: Action<T>): nat {
    if a.Flush? then 1 + CodeSize(a.code) else 1
  }

  function CodeSize<T>(code: seq<Block<T>>): nat {
    if code == [] then 0 else Size(code[0].actions) + CodeSize(code[1..])
  }

  /** From `s` to `t` the regions `es` have run, one by one and with all resumptions of a flush at once. */
  ghost predicate Ran<T>(s: Chan<T>, t: Chan<T>, es: seq<Event<T>>) {
    Legal(s, es) && Alike(t, Run(s, es))
  }

  // What code makes of a channel, as a function of the state it starts from.

  /** The region of one action; an action that its waiter cannot take now is skipped. */
  ghost function RegionOf<T>(s: Chan<T>, a: Action<T>): seq<Event<T>>
    requires !a.Flush?
  {
    match a
    case Send(v, _) => [TrySend(v)]
    case AsyncSend(id, v) => if id !in s.offers then [SendStart(id, v)] else []
    case AsyncSendWait(id) =>
      if id in s.offers && id !in s.sendFates && id !in Ids(s.senders) then [SendWait(id, s.offers[id])] else []
    case Receive(id, limit) => if id !in s.known then [RecvStart(id, MC.Expired(limit))] else []
    case ReceiveWait(id, limit) =>
      if id in s.known && id !in s.fates && id !in s.receivers then
        [RecvWait(id, MC.Expired(limit), limit.Within?)]
      else []
    case TakeOne => [Take]
    case CloseIt => [Shut]
    case TimerOf(id, failed) =>
      if id in s.timed && id in s.known && (id in s.fates || id in s.receivers) then [Timer(id, failed)] else []
  }

  /** The regions of a list of actions, a flush resuming everyone at once before the code of those it resumes. */
  ghost function Regions<T>(s: Chan<T>, actions: seq<Action<T>>): seq<Event<T>>
    decreases Size(actions), 1
  {
    if actions == [] then []
    else
      var first := ActionRegions(s, actions[0]);
      first + Regions(Run(s, first), actions[1..])
  }

  ghost function ActionRegions<T>(s: Chan<T>, a: Action<T>): seq<Event<T>>
    decreases SizeOf(a), 0
  {
    if a.Flush? then FlushRegions(s, a.code) else RegionOf(s, a)
  }

  ghost function FlushRegions<T>(s: Chan<T>, code: seq<Block<T>>): seq<Event<T>>
    decreases CodeSize(code), 3
  {
    [Resume] + BlockRegions(ChannelSpec.Flush(s), code, |s.readyReceivers| + |s.readySenders|)
  }

  /** The regions of the code of the first `n` waiters that have any. */
  ghost function BlockRegions<T>(s: Chan<T>, code: seq<Block<T>>, n: nat): seq<Event<T>>
    decreases CodeSize(code), 2, |code|
  {
    if code == [] || n == 0 then []
    else
      var first := Regions(s, code[0].actions);
      first + BlockRegions(Run(s, first), code[1..], n - 1)
  }

  /** The code runs the same whatever was logged before it. */
  lemma {:induction false} RegionsAhead<T>(s: Chan<T>, t: Chan<T>, actions: seq<Action<T>>,
                                           rs: multiset<Id>, ss: multiset<Id>)
    requires Ahead(s, t, rs, ss)
    ensures Regions(s, actions) == Regions(t, actions)
    decreases Size(actions), 1
  {
    hide Ahead, Run, Legal, ActionRegions;
    if actions == [] {
    } else {
      ActionRegionsAhead(s, t, actions[0], rs, ss);
      var first := ActionRegions(s, actions[0]);
      RunAhead(s, t, first, rs, ss);
      RegionsAhead(Run(s, first), Run(t, first), actions[1..], rs, ss);
    }
  }

  lemma {:induction false} ActionRegionsAhead<T>(s: Chan<T>, t: Chan<T>, a: Action<T>,
                                                 rs: multiset<Id>, ss: multiset<Id>)
    requires Ahead(s, t, rs, ss)
    ensures ActionRegions(s, a) == ActionRegions(t, a)
    decreases SizeOf(a), 0
  {
    if a.Flush? {
      var n := |s.readyReceivers| + |s.readySenders|;
      FlushAhead(s, t, rs, ss);
      hide Ahead;
      BlockRegionsAhead(ChannelSpec.Flush(s), ChannelSpec.Flush(t), a.code, n, rs, ss);
    }
  }

  lemma FlushAhead<T>(s: Chan<T>, t: Chan<T>, rs: multiset<Id>, ss: multiset<Id>)
    requires Ahead(s, t, rs, ss)
    ensures Ahead(ChannelSpec.Flush(s), ChannelSpec.Flush(t), rs, ss)
    ensures s.readyReceivers == t.readyReceivers && s.readySenders == t.readySenders
  {
    ApplyAhead(s, t, Resume, rs, ss);
  }

  lemma {:induction false} BlockRegionsAhead<T>(s: Chan<T>, t: Chan<T>, code: seq<Block<T>>, n: nat,
                                                rs: multiset<Id>, ss: multiset<Id>)
    requires Ahead(s, t, rs, ss)
    ensures BlockRegions(s, code, n) == BlockRegions(t, code, n)
    decreases CodeSize(code), 2, |code|
  {
    hide Ahead, Run, Legal, Regions;
    if code == [] || n == 0 {
    } else {
      RegionsAhead(s, t, code[0].actions, rs, ss);
      var first := Regions(s, code[0].actions);
      RunAhead(s, t, first, rs, ss);
      BlockRegionsAhead(Run(s, first), Run(t, first), code[1..], n - 1, rs, ss);
    }
  }

  lemma RanNothing<T>(s: Chan<T>)
    ensures Ran(s, s, [])
  {
  }

  lemma RanOne<T>(s: Chan<T>, e: Event<T>)
    requires Enabled(s, e)
    ensures Ran(s, Apply(s, e), [e])
  {
    hide Apply, Enabled;
    var t := Apply(s, e);
    assert [e][1..] == [] && Run(t, []) == t && Legal(t, []);
    assert Run(s, [e]) == t && Legal(s, [e]);
  }

  lemma RanThen<T>(s: Chan<T>, t: Chan<T>, u: Chan<T>, a: seq<Event<T>>, b: seq<Event<T>>)
    requires Ran(s, t, a) && Ran(t, u, b)
    ensures Ran(s, u, a + b)
  {
    hide Run, Legal;
    BlockAhead(t, u, Run(s, a), b, multiset{}, multiset{});
    RunConcat(s, a, b);
  }

  /** What holds of every run holds of code that runs so: the invariants, final outcomes, and the number of times each
      waiter is resumed. */
  lemma RanGuarantees<T>(s: Chan<T>, t: Chan<T>, es: seq<Event<T>>, x: Id)
    requires Inv(s) && Ran(s, t, es)
    ensures Inv(t) && Later(s, t)
    ensures ChannelWaiters.Resumptions(t, x) == ChannelWaiters.Resumptions(Run(s, es), x)
    ensures ChannelWaiters.SenderResumptions(t, x) == ChannelWaiters.SenderResumptions(Run(s, es), x)
  {
    hide Run, Legal, Inv, Later;
    RunsKeepInv(s, es);
    RunLater(s, es);
    AlikeInv(t, Run(s, es));
    AlikeLater(s, t, Run(s, es));
  }

  lemma AlikeInv<T>(s: Chan<T>, t: Chan<T>)
    requires Alike(s, t) && Inv(t)
    ensures Inv(s)
  {
  }

  lemma AlikeLater<T>(r: Chan<T>, s: Chan<T>, t: Chan<T>)
    requires Alike(s, t) && Later(r, t)
    ensures Later(r, s)
  {
  }

  /** Code that makes any use of the channel runs as the regions of its actions, one after the other: all that holds of
      every run holds of it. */
  method Perform<T>(c: MC.MessageChannel<T>, actions: seq<Action<T>>) returns (ghost es: seq<Event<T>>)
    requires c.Valid()
    modifies c
    ensures c.Valid() && es == Regions(old(c.view), actions) && Ran(old(c.view), c.view, es)
    decreases Size(actions), 0
  {
    hide Ran, Run, Legal, Apply, Enabled, Regions, ActionRegions;
    ghost var s := c.view;
    es := [];
    RanNothing(s);
    RunNothing(s);
    var rest := actions;
    while rest != []
      invariant c.Valid() && Ran(s, c.view, es) && Size(rest) <= Size(actions)
      invariant Regions(s, actions) == es + Regions(Run(s, es), rest)
      decreases |rest|
    {
      var a := rest[0];
      ghost var before, more := c.view, [];
      if a.Flush? {
        more := FlushReadyWaiters(c, a.code);
      } else {
        more := PerformOne(c, a);
      }
      ActionIs(before, a);
      RegionsThen(s, before, es, rest);
      RanThen(s, before, c.view, es, more);
      es := es + more;
      rest := rest[1..];
    }
    RegionsOfNothing(Run(s, es));
  }

  lemma ActionIs<T>(s: Chan<T>, a: Action<T>)
    ensures ActionRegions(s, a) == if a.Flush? then FlushRegions(s, a.code) else RegionOf(s, a)
  {
  }

  lemma RegionsOfNothing<T>(s: Chan<T>)
    ensures Regions(s, []) == []
  {
  }

  /** One action more of code that has run the regions `es` so far, from `s` to `t`. */
  lemma RegionsThen<T>(s: Chan<T>, t: Chan<T>, es: seq<Event<T>>, rest: seq<Action<T>>)
    requires Ran(s, t, es) && rest != []
    ensures var more := ActionRegions(t, rest[0]);
            es + Regions(Run(s, es), rest) == (es + more) + Regions(Run(s, es + more), rest[1..])
  {
    hide Run, Legal, ActionRegions;
    ActionRegionsAhead(t, Run(s, es), rest[0], multiset{}, multiset{});
    RunConcat(s, es, ActionRegions(t, rest[0]));
  }

  /** One region.  An action that its waiter cannot take now is skipped. */
  method PerformOne<T>(c: MC.MessageChannel<T>, a: Action<T>) returns (ghost es: seq<Event<T>>)
    requires c.Valid() && !a.Flush?
    modifies c
    ensures c.Valid() && es == RegionOf(old(c.view), a) && Ran(old(c.view), c.view, es)
  {
    hide Ran, TakeNow, CloseAll, Enabled;
    ghost var s := c.view;
    match a {
      case Send(v, loopThread) =>
        var turn, wake := c.BlockingSendTurn(v, loopThread);
        RanSend(s, c.view, v);
        es := [TrySend(v)];
      case TakeOne =>
        var value, wake, notify := c.TryRecvNow();
        RanTake(s);
        es := [Take];
      case CloseIt =>
        var schedule := c.Close();
        RanShut(s);
        es := [Shut];
      case TimerOf(id, failed) => es := PerformTimer(c, id, failed);
      case AsyncSend(_, _) => es := PerformSend(c, a);
      case AsyncSendWait(_) => es := PerformSend(c, a);
      case Receive(_, _) => es := PerformReceive(c, a);
      case ReceiveWait(_, _) => es := PerformReceive(c, a);
    }
  }

  lemma RanSend<T>(s: Chan<T>, t: Chan<T>, v: T)
    requires t == if !s.closed && CanSend(s) then Place(s, v) else s
    ensures Ran(s, t, [TrySend(v)])
  {
    RanOne(s, TrySend(v));
  }

  lemma RanTake<T>(s: Chan<T>)
    ensures Ran(s, TakeNow(s), [Take])
  {
    RanOne(s, Take);
  }

  lemma RanShut<T>(s: Chan<T>)
    ensures Ran(s, CloseAll(s), [Shut])
  {
    RanOne(s, Shut);
  }

  method PerformTimer<T>(c: MC.MessageChannel<T>, id: Id, failed: bool) returns (ghost es: seq<Event<T>>)
    requires c.Valid()
    modifies c
    ensures c.Valid() && es == RegionOf(old(c.view), TimerOf(id, failed)) && Ran(old(c.view), c.view, es)
  {
    hide Ran, Expire;
    MC.IdleReceiver(c.receivers, c.receiverWaiters, c.view.receivers, c.view.known, c.view.fates, id);
    hide MC.RepReceivers, MC.RepSenders;
    ghost var s := c.view;
    RanNothing(s);
    es := [];
    if id in c.timers && id in c.receivers && (c.receivers[id].completed || id in c.receiverWaiters) {
      c.TimerReport(id, failed);
      RanOne(s, Timer(id, failed));
      es := [Timer(id, failed)];
    }
  }

  method PerformSend<T>(c: MC.MessageChannel<T>, a: Action<T>) returns (ghost es: seq<Event<T>>)
    requires c.Valid() && (a.AsyncSend? || a.AsyncSendWait?)
    modifies c
    ensures c.Valid() && es == RegionOf(old(c.view), a) && Ran(old(c.view), c.view, es)
  {
    hide Ran, SendReady, SendSuspend, Run, Legal;
    MC.IdleSender(c.senders, c.senderWaiters, c.view.senders, c.view.offers, c.view.sendFates, a.id);
    hide MC.RepReceivers, MC.RepSenders;
    ghost var s := c.view;
    RanNothing(s);
    es := [];
    match a {
      case AsyncSend(id, v) =>
        if id !in c.senders {
          var go, wake := c.SendReady(id, v);
          RanOne(s, SendStart(id, v));
          es := [SendStart(id, v)];
        }
      case AsyncSendWait(id) =>
        if id in c.senders && !c.senders[id].completed && id !in c.senderWaiters {
          var suspends, wake := c.SendSuspend(id);
          RanOne(s, SendWait(id, s.offers[id]));
          es := [SendWait(id, s.offers[id])];
        }
    }
  }

  method PerformReceive<T>(c: MC.MessageChannel<T>, a: Action<T>) returns (ghost es: seq<Event<T>>)
    requires c.Valid() && (a.Receive? || a.ReceiveWait?)
    modifies c
    ensures c.Valid() && es == RegionOf(old(c.view), a) && Ran(old(c.view), c.view, es)
  {
    hide Ran, RecvReady, RecvSuspend, Run, Legal;
    MC.IdleReceiver(c.receivers, c.receiverWaiters, c.view.receivers, c.view.known, c.view.fates, a.id);
    hide MC.RepReceivers, MC.RepSenders;
    ghost var s := c.view;
    RanNothing(s);
    es := [];
    match a {
      case Receive(id, limit) =>
        if id !in c.receivers {
          var go, wake, notify := c.RecvReady(id, limit);
          RanOne(s, RecvStart(id, MC.Expired(limit)));
          es := [RecvStart(id, MC.Expired(limit))];
        }
      case ReceiveWait(id, limit) =>
        if id in c.receivers && !c.receivers[id].completed && id !in c.receiverWaiters {
          var suspends, wake, notify := c.RecvSuspend(id, limit);
          RanOne(s, RecvWait(id, MC.Expired(limit), limit.Within?));
          es := [RecvWait(id, MC.Expired(limit), limit.Within?)];
        }
    }
  }

  /** The channel with what a flush has still to resume logged in order. */
  function Logged<T>(s: Chan<T>, rs: seq<Id>, ss: seq<Id>): Chan<T> {
    WithLogs(s, s.resumedReceivers + rs, s.resumedSenders + ss)
  }

  lemma TakenAhead<T>(s: Chan<T>)
    ensures Ahead(s.(readyReceivers := [], readySenders := []), ChannelSpec.Flush(s),
                  multiset(s.readyReceivers), multiset(s.readySenders))
    ensures Logged(s.(readyReceivers := [], readySenders := []), s.readyReceivers, s.readySenders)
         == ChannelSpec.Flush(s)
  {
  }

  lemma ReceiverResumed<T>(v: Chan<T>, t: Chan<T>, rs: seq<Id>, ss: seq<Id>)
    requires rs != [] && Ahead(v, t, multiset(rs), multiset(ss))
    ensures Ahead(ContinueReceiver(v, rs[0]), t, multiset(rs[1..]), multiset(ss))
    ensures Logged(ContinueReceiver(v, rs[0]), rs[1..], ss) == Logged(v, rs, ss)
  {
    assert rs == [rs[0]] + rs[1..];
    assert v.resumedReceivers + [rs[0]] + rs[1..] == v.resumedReceivers + rs;
  }

  lemma SenderResumed<T>(v: Chan<T>, t: Chan<T>, ss: seq<Id>)
    requires ss != [] && Ahead(v, t, multiset{}, multiset(ss))
    ensures Ahead(ContinueSender(v, ss[0]), t, multiset{}, multiset(ss[1..]))
    ensures Logged(ContinueSender(v, ss[0]), [], ss[1..]) == Logged(v, [], ss)
  {
    assert ss == [ss[0]] + ss[1..];
    assert v.resumedSenders + [ss[0]] + ss[1..] == v.resumedSenders + ss;
  }

  lemma NothingLogged<T>(v: Chan<T>)
    ensures Logged(v, [], []) == v
  {
  }

  lemma FlushRan<T>(s: Chan<T>, v: Chan<T>, more: seq<Event<T>>)
    requires Legal(ChannelSpec.Flush(s), more)
    requires Ahead(v, Run(ChannelSpec.Flush(s), more), multiset{}, multiset{})
    ensures Ran(s, v, [Resume] + more)
  {
    RanOne(s, Resume);
    assert Run(s, [Resume]) == ChannelSpec.Flush(s);
    RunConcat(s, [Resume], more);
  }

  /** A flush, whatever the code of the waiters it resumes does in between, further flushes included. */
  method FlushReadyWaiters<T>(c: MC.MessageChannel<T>, code: seq<Block<T>>) returns (ghost es: seq<Event<T>>)
    requires c.Valid()
    modifies c
    ensures c.Valid() && es == FlushRegions(old(c.view), code) && Ran(old(c.view), c.view, es)
    ensures code == [] ==> c.view == ChannelSpec.Flush(old(c.view))
    decreases CodeSize(code), 2
  {
    hide Ahead, Run, Legal, Ran, Logged, BlockRegions, ContinueReceiver, ContinueSender, MC.RepReceivers, MC.RepSenders;
    ghost var s, more := c.view, [];
    ghost var flushed := ChannelSpec.Flush(s);
    TakenAhead(s);
    RunNothing(flushed);
    var rs, ss := c.TakeReady();
    var rest := code;
    ghost var total := |rs| + |ss|;
    while rs != []
      invariant c.Valid() && CodeSize(rest) <= CodeSize(code) && Legal(flushed, more)
      invariant Ahead(c.view, Run(flushed, more), multiset(rs), multiset(ss))
      invariant BlockRegions(flushed, code, total)
             == more + BlockRegions(Run(flushed, more), rest, |rs| + |ss|)
      invariant code == [] ==> rest == [] && Logged(c.view, rs, ss) == flushed
    {
      ReceiverResumed(c.view, Run(flushed, more), rs, ss);
      c.ResumeReceiver(rs[0]);
      rs := rs[1..];
      more, rest := ResumedCode(c, rest, flushed, more, multiset(rs), multiset(ss), |rs| + |ss|);
    }
    while ss != []
      invariant c.Valid() && CodeSize(rest) <= CodeSize(code) && Legal(flushed, more)
      invariant Ahead(c.view, Run(flushed, more), multiset{}, multiset(ss))
      invariant BlockRegions(flushed, code, total) == more + BlockRegions(Run(flushed, more), rest, |ss|)
      invariant code == [] ==> rest == [] && Logged(c.view, [], ss) == flushed
    {
      SenderResumed(c.view, Run(flushed, more), ss);
      c.ResumeSender(ss[0]);
      ss := ss[1..];
      more, rest := ResumedCode(c, rest, flushed, more, multiset{}, multiset(ss), |ss|);
    }
    NoBlocks(Run(flushed, more), rest);
    FlushRan(s, c.view, more);
    NothingLogged(c.view);
    return [Resume] + more;
  }

  lemma NoBlocks<T>(s: Chan<T>, code: seq<Block<T>>)
    ensures BlockRegions(s, code, 0) == []
  {
  }

  /** What the waiter just resumed does before the flush goes on. */
  method ResumedCode<T>(c: MC.MessageChannel<T>, code: seq<Block<T>>, ghost flushed: Chan<T>,
                        ghost more: seq<Event<T>>, ghost rs: multiset<Id>, ghost ss: multiset<Id>,
                        ghost left: nat)
    returns (ghost more': seq<Event<T>>, rest: seq<Block<T>>)
    requires c.Valid() && Legal(flushed, more) && Ahead(c.view, Run(flushed, more), rs, ss)
    modifies c
    ensures c.Valid() && Legal(flushed, more') && Ahead(c.view, Run(flushed, more'), rs, ss)
    ensures rest == if code == [] then [] else code[1..]
    ensures more + BlockRegions(Run(flushed, more), code, left + 1)
         == more' + BlockRegions(Run(flushed, more'), rest, left)
    ensures code == [] ==> c.view == old(c.view)
    decreases CodeSize(code), 1
  {
    hide Ahead, Run, Legal;
    if code == [] {
      return more, [];
    }
    ghost var v := c.view;
    ghost var block := Perform(c, code[0].actions);
    RegionsAhead(v, Run(flushed, more), code[0].actions, rs, ss);
    BlockAhead(v, c.view, Run(flushed, more), block, rs, ss);
    RunConcat(flushed, more, block);
    return more + block, code[1..];
  }

  lemma RunNothing<T>(s: Chan<T>)
    ensures Run(s, []) == s && Legal(s, [])
  {
  }
}
