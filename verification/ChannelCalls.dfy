/** Calls on a channel as their callers see them.  A call ends only after its locked region: it reports back when it has
    asked for the flush it owes.  Off the loop thread that request throws once the channel's handle is closing, and the
    call then fails although its region has taken effect. */
module ChannelCalls {
  import opened Waiters
  import opened Counting
  import opened ChannelSpec
  import opened ChannelRuns
  import ChannelWaiters
  import ChannelSends
  import MC = MessageChannel
  import Flushing = ChannelFlush

  /** The handle that carries flush requests to the loop: open, its close task posted, that task's flush done, and
      closing for good. */
  datatype Handle = Open | TaskPosted | TaskFlushed | Closing

  /** One locked region and its call.  `completes`: the call does not go on to suspend; `did`: the region did what the
      caller wants; `asked`: it left a flush to ask for. */
  datatype Call<+T> = Call(event: Event<T>, offLoop: bool, completes: bool, did: bool, asked: bool)

  /** What the caller sees: success; failure of the region, which then had no effect; or the error of a closing handle. */
  datatype Report = Done | Failed | Threw

  datatype World<+T> = World(
    chan: Chan<T>,
    handle: Handle,
    signalled: bool,            // a flush request waits for the loop
    calls: map<Id, Call<T>>,
    reports: map<Id, Report>,
    raced: set<Id>)             // receivers that stored their continuation and then went on at once

  datatype Step<+T> =
    | Begin(call: Id, event: Event<T>, offLoop: bool)
    | Finish(call: Id)
    | AsyncWakes
    | CloseTaskFlushes
    | CloseTaskCloses

  function New<T>(capacity: nat): World<T> {
    World(ChannelSpec.Init(capacity), Open, false, map[], map[], {})
  }

  /** The caller need not suspend after this region. */
  predicate Completes<T>(s: Chan<T>, e: Event<T>) {
    match e
    case SendStart(_, _) => s.closed || CanSend(s)
    case SendWait(_, _) => s.closed || CanSend(s)
    case RecvStart(_, expired) => Receivable(s) || expired
    case RecvWait(_, expired, _) => Receivable(s) || expired
    case _ => true
  }

  predicate IsSend<T>(e: Event<T>) {
    e.TrySend? || e.SendStart? || e.SendWait?
  }

  predicate IsReceive<T>(e: Event<T>) {
    e.RecvStart? || e.RecvWait? || e.Take?
  }

  /** The region placed the value of a send, or took one for a receive. */
  predicate Did<T>(s: Chan<T>, e: Event<T>) {
    if IsSend(e) then CanSend(s)
    else if IsReceive(e) then s.buffer != [] || s.senders != []
    else true
  }

  /** `close` leaves its flush to the task it posts. */
  predicate Asked<T>(s: Chan<T>, e: Event<T>) {
    !e.Shut? && ChannelWaiters.AsksFlush(s, e)
  }

  /** `notify_ready_waiters` throws. */
  predicate NotifyThrows(handle: Handle, asked: bool, offLoop: bool) {
    asked && offLoop && handle == Closing
  }

  ghost predicate Enabled<T>(w: World<T>, step: Step<T>) {
    match step
    case Begin(c, e, offLoop) =>
      c !in w.calls && !e.Resume? && ChannelRuns.Enabled(w.chan, e) && (e.Timer? ==> !offLoop)
    case Finish(c) => c in w.calls && w.calls[c].completes && c !in w.reports
    case AsyncWakes => w.signalled
    case CloseTaskFlushes => w.handle == TaskPosted
    case CloseTaskCloses => w.handle == TaskFlushed
  }

  ghost function Apply<T>(w: World<T>, step: Step<T>): World<T> {
    match step
    case Begin(c, e, offLoop) =>
      w.(chan := ChannelRuns.Apply(w.chan, e),
         handle := if e.Shut? && w.handle.Open? then TaskPosted else w.handle,
         calls := w.calls[c := Call(e, offLoop, Completes(w.chan, e), Did(w.chan, e), Asked(w.chan, e))],
         raced := if e.RecvWait? && Receivable(w.chan) then w.raced + {e.id} else w.raced)
    case Finish(c) => if c in w.calls then Finished(w, c, w.calls[c]) else w
    case AsyncWakes => w.(chan := Flush(w.chan), signalled := false)
    case CloseTaskFlushes => w.(chan := Flush(w.chan), handle := TaskFlushed)
    case CloseTaskCloses => w.(handle := Closing, signalled := false)
  }

  /** `finalize_after_unlock` of a call: on the loop thread it flushes, elsewhere it signals the loop or throws. */
  function Finished<T>(w: World<T>, c: Id, call: Call<T>): World<T> {
    var threw := NotifyThrows(w.handle, call.asked, call.offLoop);
    w.(chan := if call.asked && !call.offLoop then Flush(w.chan) else w.chan,
       signalled := w.signalled || (call.asked && call.offLoop && !threw),
       reports := w.reports[c := if threw then Threw else if call.did then Done else Failed])
  }

  ghost predicate Legal<T>(w: World<T>, es: seq<Step<T>>)
    decreases |es|
  {
    es != [] ==> Enabled(w, es[0]) && Legal(Apply(w, es[0]), es[1..])
  }

  ghost function Run<T>(w: World<T>, es: seq<Step<T>>): World<T>
    decreases |es|
  {
    if es == [] then w else Run(Apply(w, es[0]), es[1..])
  }

  lemma {:induction false} RunConcat<T>(w: World<T>, a: seq<Step<T>>, b: seq<Step<T>>)
    ensures Run(w, a + b) == Run(Run(w, a), b)
    ensures Legal(w, a + b) <==> Legal(w, a) && Legal(Run(w, a), b)
    decreases |a|
  {
    hide Apply, Enabled;
    if a == [] {
      assert a + b == b;
    } else {
      assert (a + b)[0] == a[0] && (a + b)[1..] == a[1..] + b;
      RunConcat(Apply(w, a[0]), a[1..], b);
    }
  }

  // ---------------------------------------------------------------- the channel underneath

  /** The regions a step runs on the channel. */
  function Regions<T>(w: World<T>, step: Step<T>): seq<Event<T>> {
    match step
    case Begin(_, e, _) => [e]
    case Finish(c) => if c in w.calls && w.calls[c].asked && !w.calls[c].offLoop then [Resume] else []
    case AsyncWakes => [Resume]
    case CloseTaskFlushes => [Resume]
    case CloseTaskCloses => []
  }

  ghost function RegionsIn<T>(w: World<T>, es: seq<Step<T>>): seq<Event<T>>
    decreases |es|
  {
    if es == [] then [] else Regions(w, es[0]) + RegionsIn(Apply(w, es[0]), es[1..])
  }

  lemma StepRuns<T>(w: World<T>, step: Step<T>)
    requires Enabled(w, step)
    ensures ChannelRuns.Legal(w.chan, Regions(w, step))
    ensures ChannelRuns.Run(w.chan, Regions(w, step)) == Apply(w, step).chan
  {
    hide ChannelRuns.Enabled, Did, Asked, Completes;
    var rs := Regions(w, step);
    if rs == [] {
      ChannelWaiters.RunNothing(w.chan);
    } else {
      assert |rs| == 1 && rs[1..] == [];
      OneRegion(w.chan, rs[0]);
      assert rs == [rs[0]];
    }
  }

  lemma OneRegion<T>(s: Chan<T>, e: Event<T>)
    requires ChannelRuns.Enabled(s, e) || e.Resume?
    ensures ChannelRuns.Legal(s, [e]) && ChannelRuns.Run(s, [e]) == ChannelRuns.Apply(s, e)
  {
    assert ChannelRuns.Enabled(s, e);
    hide ChannelRuns.Enabled, ChannelRuns.Apply;
    assert [e][1..] == [];
    ChannelWaiters.RunNothing(ChannelRuns.Apply(s, e));
  }

  /** Calls run the channel through a legal run of regions: what holds of every run holds under the calls. */
  lemma {:induction false} CallsRun<T>(w: World<T>, es: seq<Step<T>>)
    requires Legal(w, es)
    ensures ChannelRuns.Legal(w.chan, RegionsIn(w, es))
    ensures ChannelRuns.Run(w.chan, RegionsIn(w, es)) == Run(w, es).chan
    decreases |es|
  {
    hide Apply, Enabled, Regions;
    if es == [] {
      ChannelWaiters.RunNothing(w.chan);
    } else {
      StepRuns(w, es[0]);
      CallsRun(Apply(w, es[0]), es[1..]);
      ChannelRuns.RunConcat(w.chan, Regions(w, es[0]), RegionsIn(Apply(w, es[0]), es[1..]));
    }
  }

  // ---------------------------------------------------------------- when a call fails after it took effect

  /** What calls and reports never lose. */
  ghost predicate Kept<T>(w: World<T>, t: World<T>) {
    && (forall c :: c in w.calls ==> c in t.calls && t.calls[c] == w.calls[c])
    && (forall c :: c in w.reports ==> c in t.reports && t.reports[c] == w.reports[c])
  }

  lemma StepKept<T>(w: World<T>, step: Step<T>)
    requires Enabled(w, step)
    ensures Kept(w, Apply(w, step))
  {
    hide ChannelRuns.Apply, ChannelRuns.Enabled, Flush;
  }

  lemma {:induction false} RunKept<T>(w: World<T>, es: seq<Step<T>>)
    requires Legal(w, es)
    ensures Kept(w, Run(w, es))
    decreases |es|
  {
    hide Apply, Enabled;
    if es == [] {
    } else {
      StepKept(w, es[0]);
      RunKept(Apply(w, es[0]), es[1..]);
    }
  }

  lemma {:induction false} ClosingIff<T>(w: World<T>, es: seq<Step<T>>)
    requires Legal(w, es)
    ensures Run(w, es).handle == Closing <==> w.handle == Closing || CloseTaskCloses in es
    decreases |es|
  {
    hide Apply, Enabled;
    if es == [] {
    } else {
      assert es == [es[0]] + es[1..];
      ClosingStep(w, es[0]);
      ClosingIff(Apply(w, es[0]), es[1..]);
    }
  }

  lemma ClosingStep<T>(w: World<T>, step: Step<T>)
    requires Enabled(w, step)
    ensures Apply(w, step).handle == Closing <==> w.handle == Closing || step == CloseTaskCloses
  {
    hide ChannelRuns.Apply, ChannelRuns.Enabled, Flush, Did, Asked, Completes;
  }

  lemma BeginRecords<T>(w: World<T>, c: Id, e: Event<T>, offLoop: bool)
    ensures var t := Apply(w, Begin(c, e, offLoop));
            c in t.calls && t.calls[c] == Call(e, offLoop, Completes(w.chan, e), Did(w.chan, e), Asked(w.chan, e))
  {
    hide ChannelRuns.Apply;
  }

  lemma FinishReports<T>(w: World<T>, c: Id)
    requires c in w.calls
    ensures var t, call := Apply(w, Finish(c)), w.calls[c];
            c in t.reports &&
            t.reports[c] == if NotifyThrows(w.handle, call.asked, call.offLoop) then Threw
                            else if call.did then Done else Failed
  {
    hide Flush;
  }

  lemma SplitAt<T>(w: World<T>, es: seq<Step<T>>, k: nat)
    requires Legal(w, es) && k < |es|
    ensures Legal(w, es[..k]) && Enabled(Run(w, es[..k]), es[k])
    ensures var t := Apply(Run(w, es[..k]), es[k]); Legal(t, es[k + 1..]) && Run(t, es[k + 1..]) == Run(w, es)
  {
    hide Apply, Enabled;
    assert es == es[..k] + es[k..];
    RunConcat(w, es[..k], es[k..]);
    assert es[k..][0] == es[k] && es[k..][1..] == es[k + 1..];
  }

  /** The report of a call, for every run: it throws although its region ran if and only if the region left a flush to
      ask for, the call is not on the loop thread, and the close task closed the handle before the call finished.
      Otherwise it reports what its region did. */
  lemma ThrewIff<T>(w: World<T>, es: seq<Step<T>>, i: nat, j: nat)
    requires Legal(w, es) && i < j < |es| && w.handle != Closing
    requires es[i].Begin? && es[j] == Finish(es[i].call)
    ensures var s, c, t := Run(w, es[..i]).chan, es[i].call, Run(w, es);
            && c in t.reports
            && (t.reports[c] == Threw <==> Asked(s, es[i].event) && es[i].offLoop && CloseTaskCloses in es[..j])
            && (t.reports[c] != Threw ==> t.reports[c] == if Did(s, es[i].event) then Done else Failed)
  {
    var c := es[i].call;
    var a, b := Run(w, es[..i]), Run(w, es[..j]);
    BeforeFinish(w, es, i, j);
    SplitAt(w, es, j);
    ClosingIff(w, es[..j]);
    hide Apply, Enabled, Asked, Did, Completes;
    FinishReports(b, c);
    RunKept(Apply(b, es[j]), es[j + 1..]);
  }

  /** A call is recorded with its region and is still so when it finishes. */
  lemma BeforeFinish<T>(w: World<T>, es: seq<Step<T>>, i: nat, j: nat)
    requires Legal(w, es) && i < j < |es| && es[i].Begin?
    ensures var s, c, b := Run(w, es[..i]).chan, es[i].call, Run(w, es[..j]);
            c in b.calls && b.calls[c] == Call(es[i].event, es[i].offLoop, Completes(s, es[i].event),
                                               Did(s, es[i].event), Asked(s, es[i].event))
  {
    hide Apply, Enabled, Asked, Did, Completes;
    SplitAt(w, es, j);
    SplitAt(w, es[..j], i);
    assert es[..j][..i] == es[..i] && es[..j][i] == es[i];
    BeginRecords(Run(w, es[..i]), es[i].call, es[i].event, es[i].offLoop);
    RunKept(Apply(Run(w, es[..i]), es[i]), es[..j][i + 1..]);
  }

  // ---------------------------------------------------------------- nobody is stranded

  /** Everyone queued for resumption has raced, and so goes on anyway. */
  ghost predicate Settled<T>(w: World<T>) {
    w.chan.readySenders == [] && forall x :: x in w.chan.readyReceivers ==> x in w.raced
  }

  /** A call has yet to ask for its flush. */
  ghost predicate Owed<T>(w: World<T>) {
    exists c :: c in w.calls && c !in w.reports && w.calls[c].asked
  }

  /** Whoever is queued for resumption has a flush coming: signalled, owed by a call whose request will not throw, or by
      the close task.  Once the close task has flushed, nobody is queued any more. */
  ghost predicate Inv<T>(w: World<T>) {
    && ChannelRuns.Inv(w.chan) && (w.handle == Open <==> !w.chan.closed)
    && w.reports.Keys <= w.calls.Keys
    && (forall c :: c in w.calls && w.calls[c].asked ==> w.calls[c].completes && w.calls[c].did)
    && (w.handle == Closing ==> !w.signalled)
    && (w.handle == TaskFlushed || w.handle == Closing ==> Settled(w))
    && (w.handle == Open ==> Settled(w) || w.signalled || Owed(w))
  }

  lemma AskedDid<T>(s: Chan<T>, e: Event<T>)
    requires ChannelRuns.Inv(s) && Asked(s, e)
    ensures Completes(s, e) && Did(s, e)
    ensures s.closed ==> e.Timer? || e.Resume?
  {
    hide ChannelRuns.ReceiversOk, ChannelRuns.SendersOk, ChannelRuns.Conserved;
  }

  /** A timer that reports to a closed channel finds nobody waiting. */
  lemma TimerOnClosed<T>(s: Chan<T>, id: Id, failed: bool)
    requires ChannelRuns.Inv(s) && s.closed
    ensures ChannelRuns.Apply(s, Timer(id, failed)) == s
  {
    hide ChannelRuns.ReceiversOk, ChannelRuns.SendersOk, ChannelRuns.Conserved;
  }

  lemma ClosedAfter<T>(s: Chan<T>, e: Event<T>)
    requires ChannelRuns.Inv(s) && ChannelRuns.Enabled(s, e)
    ensures ChannelRuns.Apply(s, e).closed <==> s.closed || e.Shut?
  {
    if s.closed {
      ApplyLater(s, e);
    } else {
      StepRefinesQueue(s, e);
      StaysOpen(Abstract(s), s.capacity, e);
    }
  }

  lemma StaysOpen<T>(q: Queue<T>, capacity: nat, e: Event<T>)
    ensures QueueStep(capacity, q, e).closed <==> q.closed || e.Shut?
  {
  }

  /** Who is queued after a region that leaves no flush to ask for: those before, and perhaps a receiver that raced. */
  lemma QuietRegion<T>(w: World<T>, c: Id, e: Event<T>, offLoop: bool)
    requires ChannelRuns.Inv(w.chan) && Enabled(w, Begin(c, e, offLoop)) && !Asked(w.chan, e) && !e.Shut?
    ensures Settled(w) ==> Settled(Apply(w, Begin(c, e, offLoop)))
  {
    ChannelWaiters.ReadyIsFlushed(w.chan, e);
    hide ChannelRuns.Inv, ChannelRuns.Apply;
    if e.RecvWait? && !Receivable(w.chan) {
      NotReceivable(w.chan, e);
    }
  }

  lemma NotReceivable<T>(s: Chan<T>, e: Event<T>)
    requires e.RecvWait? && !Receivable(s)
    ensures ChannelRuns.Apply(s, e).readyReceivers == s.readyReceivers
  {
  }

  lemma BeginKeeps<T>(w: World<T>, c: Id, e: Event<T>, offLoop: bool)
    requires Inv(w) && Enabled(w, Begin(c, e, offLoop))
    ensures Inv(Apply(w, Begin(c, e, offLoop)))
  {
    hide ChannelRuns.Inv, ChannelRuns.Apply, ChannelRuns.Enabled, Asked, Did, Completes, Settled;
    var t := Apply(w, Begin(c, e, offLoop));
    ApplyKeeps(w.chan, e);
    ClosedAfter(w.chan, e);
    if Asked(w.chan, e) {
      AskedDid(w.chan, e);
    }
    BeginSettles(w, c, e, offLoop);
    if w.handle == Open && !e.Shut? && !Settled(t) && !w.signalled {
      if Asked(w.chan, e) {
        assert c in t.calls && t.calls[c].asked && c !in t.reports;
      } else {
        var d :| d in w.calls && d !in w.reports && w.calls[d].asked;
        assert d in t.calls && t.calls[d].asked;
      }
    }
  }

  /** After a region: settled as before, unless the region has left a flush to ask for or posted the close task. */
  lemma BeginSettles<T>(w: World<T>, c: Id, e: Event<T>, offLoop: bool)
    requires Inv(w) && Enabled(w, Begin(c, e, offLoop))
    ensures Settled(w) && !(w.handle == Open && (Asked(w.chan, e) || e.Shut?)) ==> Settled(Apply(w, Begin(c, e, offLoop)))
  {
    if e.Timer? && w.chan.closed {
      TimerOnClosed(w.chan, e.id, e.failed);
    } else if e.Shut? && w.chan.closed {
      ChannelWaiters.ReadyIsFlushed(w.chan, e);
    } else if Asked(w.chan, e) {
      AskedDid(w.chan, e);
    } else if !e.Shut? {
      QuietRegion(w, c, e, offLoop);
    }
  }

  lemma FlushKeeps<T>(s: Chan<T>)
    requires ChannelRuns.Inv(s)
    ensures ChannelRuns.Inv(Flush(s)) && Flush(s).closed == s.closed
    ensures Flush(s).readyReceivers == [] && Flush(s).readySenders == []
  {
    ApplyKeeps(s, Resume);
  }

  lemma FinishKeeps<T>(w: World<T>, c: Id)
    requires Inv(w) && Enabled(w, Finish(c))
    ensures Inv(Apply(w, Finish(c)))
  {
    var t := Apply(w, Finish(c));
    FlushKeeps(w.chan);
    hide ChannelRuns.Inv, Flush;
    if w.handle == Open && !Settled(t) && !t.signalled {
      assert !w.calls[c].asked && !Settled(w) && !w.signalled;
      var d :| d in w.calls && d !in w.reports && w.calls[d].asked;
      assert d in t.calls && d !in t.reports && t.calls[d].asked;
    }
  }

  lemma StepKeeps<T>(w: World<T>, step: Step<T>)
    requires Inv(w) && Enabled(w, step)
    ensures Inv(Apply(w, step))
  {
    match step {
      case Begin(c, e, offLoop) => BeginKeeps(w, c, e, offLoop);
      case Finish(c) => FinishKeeps(w, c);
      case _ =>
        FlushKeeps(w.chan);
        hide ChannelRuns.Inv, Flush;
    }
  }

  lemma {:induction false} RunsKeepInv<T>(w: World<T>, es: seq<Step<T>>)
    requires Inv(w) && Legal(w, es)
    ensures Inv(Run(w, es))
    decreases |es|
  {
    hide Apply, Enabled, Inv;
    if es == [] {
    } else {
      StepKeeps(w, es[0]);
      RunsKeepInv(Apply(w, es[0]), es[1..]);
    }
  }

  lemma NewInv<T>(capacity: nat)
    ensures Inv(New<T>(capacity))
  {
    ChannelSends.NewIsKept<T>(capacity);
    hide ChannelRuns.Inv;
  }

  /** At every moment of every run, although calls may throw instead of asking for their flush: whoever is queued for
      resumption has one coming, from the loop's signal, from a call that has yet to finish, or from the close task.  The
      only others are receivers that raced, and these go on without it. */
  lemma NobodyIsStranded<T>(capacity: nat, es: seq<Step<T>>)
    requires Legal(New<T>(capacity), es)
    ensures var w := Run(New<T>(capacity), es);
            Settled(w) || w.handle == TaskPosted || (w.handle == Open && (w.signalled || Owed(w)))
  {
    hide Apply, Enabled, Settled, Owed;
    NewInv<T>(capacity);
    RunsKeepInv(New<T>(capacity), es);
    InvSays(Run(New<T>(capacity), es));
  }

  lemma InvSays<T>(w: World<T>)
    requires Inv(w)
    ensures Settled(w) || w.handle == TaskPosted || (w.handle == Open && (w.signalled || Owed(w)))
    ensures forall c :: c in w.calls && w.calls[c].asked ==> w.calls[c].completes && w.calls[c].did
  {
  }

  // ---------------------------------------------------------------- what callers are told, and what becomes of values

  /** A value that left the senders for good, with the `send` or `try_send` that brought it, or the asynchronous sender. */
  datatype Sent<+T> = Sent(call: Option<Id>, sender: Option<Id>, value: T)

  ghost function SentBy<T>(w: World<T>, step: Step<T>): seq<Sent<T>> {
    if !step.Begin? then []
    else
      var told := ChannelSends.AcceptedBy(w.chan, step.event);
      if told == [] then []
      else [Sent(if told[0].sender.None? then Some(step.call) else None, told[0].sender, told[0].value)]
  }

  ghost function SentLog<T>(w: World<T>, es: seq<Step<T>>): seq<Sent<T>>
    decreases |es|
  {
    if es == [] then [] else SentBy(w, es[0]) + SentLog(Apply(w, es[0]), es[1..])
  }

  function Successes<T>(log: seq<Sent<T>>): seq<ChannelSends.Success<T>> {
    seq(|log|, i requires 0 <= i < |log| => ChannelSends.Success(log[i].sender, log[i].value))
  }

  /** Only a call's own region sends: a flush tells nobody. */
  lemma FlushAcceptsNobody<T>(s: Chan<T>)
    ensures ChannelSends.AcceptedBy(s, Resume) == []
  {
  }

  lemma AcceptedAtMostOne<T>(s: Chan<T>, e: Event<T>)
    ensures |ChannelSends.AcceptedBy(s, e)| <= 1
    ensures e.TrySend? ==> ChannelSends.AcceptedBy(s, e) == if CanSend(s) then [ChannelSends.Success(None, e.value)] else []
    ensures !e.TrySend? ==> forall x :: x in ChannelSends.AcceptedBy(s, e) ==> x.sender.Some?
  {
  }

  lemma SentIsAccepted<T>(w: World<T>, step: Step<T>)
    requires Enabled(w, step)
    ensures Successes(SentBy(w, step)) == ChannelSends.AcceptedIn(w.chan, Regions(w, step))
  {
    hide ChannelRuns.Apply, ChannelRuns.Enabled, ChannelSends.AcceptedBy;
    var rs := Regions(w, step);
    if rs == [] {
    } else {
      assert |rs| == 1 && rs[1..] == [];
      AcceptedAtMostOne(w.chan, rs[0]);
      FlushAcceptsNobody(w.chan);
      assert ChannelSends.AcceptedIn(ChannelRuns.Apply(w.chan, rs[0]), rs[1..]) == [];
    }
  }

  lemma {:induction false} AcceptedConcat<T>(s: Chan<T>, a: seq<Event<T>>, b: seq<Event<T>>)
    ensures ChannelSends.AcceptedIn(s, a + b) == ChannelSends.AcceptedIn(s, a) + ChannelSends.AcceptedIn(ChannelRuns.Run(s, a), b)
    decreases |a|
  {
    hide ChannelRuns.Apply, ChannelSends.AcceptedBy;
    if a == [] {
      assert a + b == b;
    } else {
      assert (a + b)[0] == a[0] && (a + b)[1..] == a[1..] + b;
      AcceptedConcat(ChannelRuns.Apply(s, a[0]), a[1..], b);
    }
  }

  lemma {:induction false} SentLogIsAccepted<T>(w: World<T>, es: seq<Step<T>>)
    requires Legal(w, es)
    ensures Successes(SentLog(w, es)) == ChannelSends.AcceptedIn(w.chan, RegionsIn(w, es))
    decreases |es|
  {
    hide Apply, Enabled, Regions, SentBy, ChannelSends.AcceptedBy;
    if es == [] {
    } else {
      var t := Apply(w, es[0]);
      SentIsAccepted(w, es[0]);
      StepRuns(w, es[0]);
      SentLogIsAccepted(t, es[1..]);
      AcceptedConcat(w.chan, Regions(w, es[0]), RegionsIn(t, es[1..]));
      assert Successes(SentBy(w, es[0]) + SentLog(t, es[1..])) == Successes(SentBy(w, es[0])) + Successes(SentLog(t, es[1..]));
    }
  }

  /** The plain sends in the log of a run are those that began in it and found room, each once and with its value. */
  ghost predicate PlainExact<T>(w: World<T>, t: World<T>, log: seq<Sent<T>>) {
    && (forall c: Id :: c !in w.calls && c in t.calls && t.calls[c].event.TrySend? && t.calls[c].did ==>
          exists i :: 0 <= i < |log| && log[i].call == Some(c))
    && (forall i :: 0 <= i < |log| && log[i].call.Some? ==>
          var c := log[i].call.value;
          && c !in w.calls && c in t.calls && t.calls[c].event == TrySend(log[i].value) && t.calls[c].did)
    && (forall i, j :: 0 <= i < j < |log| && log[i].call.Some? ==> log[i].call != log[j].call)
  }

  lemma StepPlainExact<T>(w: World<T>, step: Step<T>)
    requires Enabled(w, step)
    ensures PlainExact(w, Apply(w, step), SentBy(w, step))
  {
    hide ChannelRuns.Apply, ChannelRuns.Enabled, ChannelSends.AcceptedBy, Asked, Completes, Flush;
    if step.Begin? {
      AcceptedAtMostOne(w.chan, step.event);
      var log := SentBy(w, step);
      assert step.event.TrySend? && CanSend(w.chan) ==> log == [Sent(Some(step.call), None, step.event.value)];
      assert log != [] ==> log[0].call == (if step.event.TrySend? then Some(step.call) else None);
    }
  }

  lemma PlainThen<T>(w: World<T>, t: World<T>, u: World<T>, a: seq<Sent<T>>, b: seq<Sent<T>>)
    requires PlainExact(w, t, a) && PlainExact(t, u, b) && Kept(w, t) && Kept(t, u)
    ensures PlainExact(w, u, a + b)
  {
    var log := a + b;
    forall c: Id | c !in w.calls && c in u.calls && u.calls[c].event.TrySend? && u.calls[c].did
      ensures exists i :: 0 <= i < |log| && log[i].call == Some(c) {
      if c in t.calls {
        var i :| 0 <= i < |a| && a[i].call == Some(c);
        assert log[i].call == Some(c);
      } else {
        var i :| 0 <= i < |b| && b[i].call == Some(c);
        assert log[|a| + i].call == Some(c);
      }
    }
  }

  lemma {:induction false} RunPlainExact<T>(w: World<T>, es: seq<Step<T>>)
    requires Legal(w, es)
    ensures PlainExact(w, Run(w, es), SentLog(w, es))
    decreases |es|
  {
    hide Apply, Enabled, SentBy, PlainExact, Kept;
    if es == [] {
      NothingSent(w);
    } else {
      var t := Apply(w, es[0]);
      StepPlainExact(w, es[0]);
      StepKept(w, es[0]);
      RunPlainExact(t, es[1..]);
      RunKept(t, es[1..]);
      PlainThen(w, t, Run(t, es[1..]), SentBy(w, es[0]), SentLog(t, es[1..]));
    }
  }

  lemma NothingSent<T>(w: World<T>)
    ensures PlainExact(w, w, [])
  {
  }

  /** A finished call says `Failed` exactly if its region did nothing for it. */
  ghost predicate Truthful<T>(w: World<T>) {
    forall c :: c in w.reports ==>
      c in w.calls && (w.reports[c] == Failed <==> !w.calls[c].did) && (w.reports[c] == Threw ==> w.calls[c].asked)
  }

  lemma StepTruthful<T>(w: World<T>, step: Step<T>)
    requires Inv(w) && Enabled(w, step) && Truthful(w)
    ensures Truthful(Apply(w, step))
  {
    InvSays(w);
    hide ChannelRuns.Apply, ChannelRuns.Enabled, Asked, Did, Completes, Flush, Inv;
  }

  lemma {:induction false} RunTruthful<T>(w: World<T>, es: seq<Step<T>>)
    requires Inv(w) && Legal(w, es) && Truthful(w)
    ensures Truthful(Run(w, es))
    decreases |es|
  {
    hide Apply, Enabled, Inv, Truthful;
    if es == [] {
    } else {
      StepTruthful(w, es[0]);
      StepKeeps(w, es[0]);
      RunTruthful(Apply(w, es[0]), es[1..]);
    }
  }

  function Values<T>(log: seq<Sent<T>>): seq<T> {
    seq(|log|, i requires 0 <= i < |log| => log[i].value)
  }

  /** Over every run of a new channel: the values handed out or buffered are, in order, those of the log.  A `send` or
      `try_send` that reported success is in it, one whose region failed is not, and one that threw is in it too; by
      `ThrewIff` the last is exactly the case of a handle closed under a call off the loop thread.  An asynchronous
      sender is in it exactly if it ended as accepted. */
  lemma CallersAreToldTheTruth<T>(capacity: nat, es: seq<Step<T>>)
    requires Legal(New<T>(capacity), es)
    ensures var t, log := Run(New<T>(capacity), es), SentLog(New<T>(capacity), es);
            && t.chan.delivered + t.chan.buffer == Values(log)
            && PlainExact(New<T>(capacity), t, log) && Truthful(t)
            && (forall c: Id :: c in t.reports && t.calls[c].event.TrySend? ==>
                  (t.reports[c] != Failed <==> exists i :: 0 <= i < |log| && log[i].call == Some(c)))
            && (forall id: Id :: ChannelSends.IsAccepted(t.chan, id) <==>
                  exists i :: 0 <= i < |log| && log[i].sender == Some(id))
            && (forall i, j :: 0 <= i < j < |log| && log[i].sender.Some? ==> log[i].sender != log[j].sender)
            && (forall i :: 0 <= i < |log| && log[i].sender.Some? ==>
                  log[i].sender.value in t.chan.offers && t.chan.offers[log[i].sender.value] == log[i].value)
  {
    hide Apply, Enabled, Legal, Run, SentLog, RegionsIn, Inv;
    var w: World<T> := New(capacity);
    var t, log := Run(w, es), SentLog(w, es);
    NewInv<T>(capacity);
    RunPlainExact(w, es);
    RunTruthful(w, es);
    CallsRun(w, es);
    SentLogIsAccepted(w, es);
    ChannelSends.PlacedInOrder<T>(capacity, RegionsIn(w, es));
    FromSuccesses(capacity, t.chan, log, RegionsIn(w, es));
    FailedIffAbsent(w, t, log);
  }

  lemma FailedIffAbsent<T>(w: World<T>, t: World<T>, log: seq<Sent<T>>)
    requires PlainExact(w, t, log) && Truthful(t) && w.calls == map[]
    ensures forall c: Id :: c in t.reports && t.calls[c].event.TrySend? ==>
              (t.reports[c] != Failed <==> exists i :: 0 <= i < |log| && log[i].call == Some(c))
  {
  }

  lemma FromSuccesses<T>(capacity: nat, s: Chan<T>, log: seq<Sent<T>>, rs: seq<Event<T>>)
    requires ChannelRuns.Legal(ChannelSpec.Init<T>(capacity), rs)
    requires s == ChannelRuns.Run(ChannelSpec.Init<T>(capacity), rs)
    requires Successes(log) == ChannelSends.AcceptedIn(ChannelSpec.Init<T>(capacity), rs)
    ensures s.delivered + s.buffer == Values(log)
    ensures forall id: Id :: ChannelSends.IsAccepted(s, id) <==>
              exists i :: 0 <= i < |log| && log[i].sender == Some(id)
    ensures forall i, j :: 0 <= i < j < |log| && log[i].sender.Some? ==> log[i].sender != log[j].sender
    ensures forall i :: 0 <= i < |log| && log[i].sender.Some? ==>
              log[i].sender.value in s.offers && s.offers[log[i].sender.value] == log[i].value
  {
    hide ChannelRuns.Legal, ChannelRuns.Run, ChannelSends.AcceptedIn;
    var told := Successes(log);
    ChannelSends.PlacedInOrder<T>(capacity, rs);
    assert Values(log) == ChannelSends.SentBy(told);
    assert |told| == |log| && forall i :: 0 <= i < |log| ==>
      told[i].sender == log[i].sender && told[i].value == log[i].value;
    forall id: Id ensures ChannelSends.IsAccepted(s, id) <==> exists i :: 0 <= i < |log| && log[i].sender == Some(id) {
      if i :| 0 <= i < |log| && log[i].sender == Some(id) {
        assert told[i].sender == Some(id);
      }
      if i :| 0 <= i < |told| && told[i].sender == Some(id) {
        assert log[i].sender == Some(id);
      }
    }
  }

  // ---------------------------------------------------------------- what becomes of a value that was taken

  /** A value that was handed out: to a receive that took it in its own region, or to a receiver that waited. */
  datatype Given<+T> = Given(call: Option<Id>, receiver: Option<Id>, value: T)

  function GivenBy<T>(w: World<T>, step: Step<T>): seq<Given<T>> {
    if !step.Begin? || !Did(w.chan, step.event) then []
    else if IsReceive(step.event) && w.chan.buffer != [] then
      [Given(Some(step.call), if step.event.Take? then None else Some(step.event.id), w.chan.buffer[0])]
    else if IsSend(step.event) && w.chan.receivers != [] then
      [Given(None, Some(w.chan.receivers[0]), step.event.value)]
    else []
  }

  ghost function GivenLog<T>(w: World<T>, es: seq<Step<T>>): seq<Given<T>>
    decreases |es|
  {
    if es == [] then [] else GivenBy(w, es[0]) + GivenLog(Apply(w, es[0]), es[1..])
  }

  function Handed<T>(log: seq<Given<T>>): seq<T> {
    seq(|log|, i requires 0 <= i < |log| => log[i].value)
  }

  /** From `w` to `t`, `log` is what was handed out, in order: each receive that took something once, and each receiver
      that ended with the value. */
  ghost predicate GivenExact<T>(w: World<T>, t: World<T>, log: seq<Given<T>>) {
    && t.chan.delivered == w.chan.delivered + Handed(log)
    && (forall c: Id :: c !in w.calls && c in t.calls && IsReceive(t.calls[c].event) && t.calls[c].did ==>
          exists i :: 0 <= i < |log| && log[i].call == Some(c))
    && (forall i :: 0 <= i < |log| && log[i].call.Some? ==>
          var c := log[i].call.value; c !in w.calls && c in t.calls && IsReceive(t.calls[c].event) && t.calls[c].did)
    && (forall i, j :: 0 <= i < j < |log| && log[i].call.Some? ==> log[i].call != log[j].call)
    && (forall i :: 0 <= i < |log| && log[i].receiver.Some? ==>
          log[i].receiver.value in t.chan.fates && t.chan.fates[log[i].receiver.value] == Got(log[i].value))
    && (forall i :: 0 <= i < |log| && log[i].receiver.None? ==>
          log[i].call.Some? && t.calls[log[i].call.value].event.Take?)
  }

  /** From `s` to `t` the values of `log` were handed out, at most one. */
  ghost predicate Gives<T>(s: Chan<T>, t: Chan<T>, log: seq<Given<T>>) {
    && t.delivered == s.delivered + Handed(log)
    && (log != [] && log[0].receiver.Some? ==>
          log[0].receiver.value in t.fates && t.fates[log[0].receiver.value] == Got(log[0].value))
  }

  lemma GivesNothing<T>(s: Chan<T>, t: Chan<T>)
    requires t.delivered == s.delivered
    ensures Gives(s, t, [])
  {
    assert Handed<T>([]) == [];
  }

  lemma GivesOne<T>(s: Chan<T>, t: Chan<T>, call: Option<Id>, receiver: Option<Id>, v: T)
    requires t.delivered == s.delivered + [v]
    requires receiver.Some? ==> receiver.value in t.fates && t.fates[receiver.value] == Got(v)
    ensures Gives(s, t, [Given(call, receiver, v)])
  {
    assert Handed([Given(call, receiver, v)]) == [v];
  }

  /** What one region hands out, read off the line. */
  lemma RegionGives<T>(w: World<T>, c: Id, e: Event<T>, offLoop: bool)
    requires ChannelRuns.Inv(w.chan) && Enabled(w, Begin(c, e, offLoop))
    ensures Gives(w.chan, ChannelRuns.Apply(w.chan, e), GivenBy(w, Begin(c, e, offLoop)))
    ensures IsReceive(e) ==> (GivenBy(w, Begin(c, e, offLoop)) != [] <==> Did(w.chan, e))
  {
    StepRefinesQueue(w.chan, e);
    assert Shape(w.chan);
    hide ChannelRuns.Apply, ChannelRuns.Inv, ChannelRuns.Enabled, QueueStep, Shape, Asked, Completes, Gives;
    var s, t := w.chan, ChannelRuns.Apply(w.chan, e);
    if IsSend(e) {
      SendGives(s, e);
      if CanSend(s) && s.receivers != [] {
        GivesOne(s, t, None, Some(s.receivers[0]), e.value);
      } else {
        GivesNothing(s, t);
      }
    } else if IsReceive(e) {
      ReceiveGives(s, e);
      if s.buffer != [] {
        GivesOne(s, t, Some(c), if e.Take? then None else Some(e.id), s.buffer[0]);
      } else {
        GivesNothing(s, t);
      }
    } else {
      OtherGives(Abstract(s), s.capacity, e);
      GivesNothing(s, t);
    }
  }

  lemma OtherGives<T>(q: Queue<T>, capacity: nat, e: Event<T>)
    requires !IsSend(e) && !IsReceive(e)
    ensures QueueStep(capacity, q, e).handed == q.handed
  {
  }

  lemma SendGives<T>(s: Chan<T>, e: Event<T>)
    requires Shape(s) && IsSend(e)
    requires Abstract(ChannelRuns.Apply(s, e)) == QueueStep(s.capacity, Abstract(s), e)
    ensures var t := ChannelRuns.Apply(s, e);
            if CanSend(s) && s.receivers != [] then
              && t.delivered == s.delivered + [e.value]
              && s.receivers[0] in t.fates && t.fates[s.receivers[0]] == Got(e.value)
            else t.delivered == s.delivered
  {
    hide ChannelRuns.Apply;
    if !s.closed {
      PlaceOnLine(s, e.value);
    }
  }

  lemma ReceiveGives<T>(s: Chan<T>, e: Event<T>)
    requires Shape(s) && IsReceive(e)
    requires Abstract(ChannelRuns.Apply(s, e)) == QueueStep(s.capacity, Abstract(s), e)
    ensures var t := ChannelRuns.Apply(s, e);
            if s.buffer != [] then
              && t.delivered == s.delivered + [s.buffer[0]]
              && (!e.Take? ==> e.id in t.fates && t.fates[e.id] == Got(s.buffer[0]))
            else t.delivered == s.delivered && s.senders == []
  {
    hide ChannelRuns.Apply;
    assert s.buffer != [] ==> Line(s)[0] == s.buffer[0];
    assert s.buffer == [] ==> Line(s) == [];
  }

  lemma GivenShape<T>(w: World<T>, c: Id, e: Event<T>, offLoop: bool)
    ensures var log := GivenBy(w, Begin(c, e, offLoop));
            && |log| <= 1
            && (log != [] && log[0].call.Some? ==> log[0].call.value == c && IsReceive(e) && Did(w.chan, e))
            && (log != [] && log[0].receiver.None? ==> log[0].call.Some? && e.Take?)
            && (log != [] && IsReceive(e) ==> log[0].call == Some(c))
  {
  }

  lemma BeginGivenExact<T>(w: World<T>, c: Id, e: Event<T>, offLoop: bool)
    requires ChannelRuns.Inv(w.chan) && Enabled(w, Begin(c, e, offLoop))
    ensures GivenExact(w, Apply(w, Begin(c, e, offLoop)), GivenBy(w, Begin(c, e, offLoop)))
  {
    RegionGives(w, c, e, offLoop);
    GivenShape(w, c, e, offLoop);
    BeginRecords(w, c, e, offLoop);
    hide ChannelRuns.Apply, ChannelRuns.Enabled, ChannelRuns.Inv, Asked, Completes, Did, GivenBy;
  }

  lemma StepGivenExact<T>(w: World<T>, step: Step<T>)
    requires ChannelRuns.Inv(w.chan) && Enabled(w, step)
    ensures GivenExact(w, Apply(w, step), GivenBy(w, step))
  {
    if step.Begin? {
      hide ChannelRuns.Inv, GivenExact, Apply, Enabled, GivenBy;
      BeginGivenExact(w, step.call, step.event, step.offLoop);
    } else {
      hide ChannelRuns.Inv, ChannelRuns.Enabled;
      assert Handed<T>([]) == [];
    }
  }

  lemma GivenThen<T>(w: World<T>, t: World<T>, u: World<T>, a: seq<Given<T>>, b: seq<Given<T>>)
    requires GivenExact(w, t, a) && GivenExact(t, u, b) && Kept(w, t) && Kept(t, u)
    requires forall r :: r in t.chan.fates ==> r in u.chan.fates && u.chan.fates[r] == t.chan.fates[r]
    ensures GivenExact(w, u, a + b)
  {
    var log := a + b;
    assert Handed(log) == Handed(a) + Handed(b);
    forall c: Id | c !in w.calls && c in u.calls && IsReceive(u.calls[c].event) && u.calls[c].did
      ensures exists i :: 0 <= i < |log| && log[i].call == Some(c) {
      if c in t.calls {
        var i :| 0 <= i < |a| && a[i].call == Some(c);
        assert log[i].call == Some(c);
      } else {
        var i :| 0 <= i < |b| && b[i].call == Some(c);
        assert log[|a| + i].call == Some(c);
      }
    }
  }

  lemma NothingGiven<T>(w: World<T>)
    ensures GivenExact(w, w, [])
  {
    assert Handed<T>([]) == [];
  }

  lemma {:induction false} RunGivenExact<T>(w: World<T>, es: seq<Step<T>>)
    requires ChannelRuns.Inv(w.chan) && Legal(w, es)
    ensures GivenExact(w, Run(w, es), GivenLog(w, es))
    ensures Later(w.chan, Run(w, es).chan)
    decreases |es|
  {
    hide Apply, Enabled, Regions, GivenBy, GivenExact, Kept, ChannelRuns.Inv, Later;
    CallsRun(w, es);
    RunLater(w.chan, RegionsIn(w, es));
    if es == [] {
      NothingGiven(w);
    } else {
      var t := Apply(w, es[0]);
      StepGivenExact(w, es[0]);
      StepKept(w, es[0]);
      StepRuns(w, es[0]);
      ChannelRuns.RunsKeepInv(w.chan, Regions(w, es[0]));
      RunGivenExact(t, es[1..]);
      RunKept(t, es[1..]);
      LaterFates(t.chan, Run(t, es[1..]).chan);
      GivenThen(w, t, Run(t, es[1..]), GivenBy(w, es[0]), GivenLog(t, es[1..]));
    }
  }

  lemma LaterFates<T>(s: Chan<T>, t: Chan<T>)
    requires Later(s, t)
    ensures forall r :: r in s.fates ==> r in t.fates && t.fates[r] == s.fates[r]
  {
  }

  /** Over every run of a new channel: each value handed out is with the receiver that waited for it, or with the one
      receive that took it.  The caller of that receive has it unless its report is `Threw`; then nobody has it. */
  lemma ValuesAreHeldUnlessThrown<T>(capacity: nat, es: seq<Step<T>>)
    requires Legal(New<T>(capacity), es)
    ensures var t, log := Run(New<T>(capacity), es), GivenLog(New<T>(capacity), es);
            && t.chan.delivered == Handed(log) && GivenExact(New<T>(capacity), t, log) && Truthful(t)
            && (forall c: Id :: c in t.reports && IsReceive(t.calls[c].event) ==>
                  (t.reports[c] != Failed <==> exists i :: 0 <= i < |log| && log[i].call == Some(c)))
  {
    hide Apply, Enabled, Legal, Run, GivenLog, Inv;
    var w: World<T> := New(capacity);
    NewInv<T>(capacity);
    NewChannelInv<T>(capacity);
    RunTruthful(w, es);
    RunGivenExact(w, es);
    TakenIffPresent(w, Run(w, es), GivenLog(w, es));
  }

  lemma NewChannelInv<T>(capacity: nat)
    ensures ChannelRuns.Inv(New<T>(capacity).chan)
  {
    ChannelSends.NewIsKept<T>(capacity);
  }

  lemma TakenIffPresent<T>(w: World<T>, t: World<T>, log: seq<Given<T>>)
    requires GivenExact(w, t, log) && Truthful(t) && w.calls == map[] && w.chan.delivered == []
    ensures t.chan.delivered == Handed(log)
    ensures forall c: Id :: c in t.reports && IsReceive(t.calls[c].event) ==>
              (t.reports[c] != Failed <==> exists i :: 0 <= i < |log| && log[i].call == Some(c))
  {
  }

  /** The value of a send that threw is with the receiver that waited for it. */
  lemma ThrownSendIsDelivered<T>(capacity: nat, es: seq<Step<T>>, i: nat, j: nat)
    requires Legal(New<T>(capacity), es) && i < j < |es|
    requires es[i].Begin? && es[i].event.TrySend? && es[j] == Finish(es[i].call)
    requires es[i].call in Run(New<T>(capacity), es).reports
    requires Run(New<T>(capacity), es).reports[es[i].call] == Threw
    ensures var s, t := Run(New<T>(capacity), es[..i]).chan, Run(New<T>(capacity), es).chan;
            && s.receivers != [] && s.receivers[0] in t.fates && t.fates[s.receivers[0]] == Got(es[i].event.value)
  {
    hide Apply, Enabled, ChannelRuns.Inv, Inv;
    var w: World<T> := New(capacity);
    var a := Run(w, es[..i]);
    ThrewIff(w, es, i, j);
    SplitAt(w, es, i);
    NewInv<T>(capacity);
    RunsKeepInv(w, es[..i]);
    StepKeeps(a, es[i]);
    ThrownRegion(a, es[i]);
    ChannelInv(Apply(a, es[i]));
    RunGivenExact(Apply(a, es[i]), es[i + 1..]);
    LaterFates(Apply(a, es[i]).chan, Run(w, es).chan);
  }

  lemma ChannelInv<T>(w: World<T>)
    requires Inv(w)
    ensures ChannelRuns.Inv(w.chan)
  {
  }

  lemma ThrownRegion<T>(w: World<T>, step: Step<T>)
    requires Inv(w) && Enabled(w, step) && step.Begin? && step.event.TrySend? && Asked(w.chan, step.event)
    ensures var s, t := w.chan, Apply(w, step).chan;
            s.receivers != [] && s.receivers[0] in t.fates && t.fates[s.receivers[0]] == Got(step.event.value)
  {
    hide ChannelRuns.Inv;
    RegionGives(w, step.call, step.event, step.offLoop);
  }

  // ---------------------------------------------------------------- the two runs

  lemma StepThen<T>(w: World<T>, step: Step<T>, t: World<T>, es: seq<Step<T>>)
    requires Enabled(w, step) && Apply(w, step) == t && Legal(t, es)
    ensures Legal(w, [step] + es) && Run(w, [step] + es) == Run(t, es)
  {
    assert ([step] + es)[1..] == es;
  }

  lemma NoSteps<T>(w: World<T>)
    ensures Legal(w, []) && Run(w, []) == w
  {
  }

  /** The end of both runs: `close`, its task, and then the call 8, which off the loop thread still owes a flush. */
  const CLOSES: seq<Step<int>> := [Begin(9, Shut, false)] + ([CloseTaskFlushes] + ([CloseTaskCloses] + ([Finish(8)] + [])))

  /** A channel with nobody waiting is closed before call 8 finishes. */
  lemma ClosedUnderCall(w: World<int>)
    requires w.handle == Open && !w.chan.closed && w.chan.receivers == [] && w.chan.senders == []
    requires 9 !in w.calls && 8 in w.calls && 8 !in w.reports
    requires w.calls[8].asked && w.calls[8].offLoop && w.calls[8].completes
    ensures Legal(w, CLOSES)
    ensures var t := Run(w, CLOSES);
            && 8 in t.reports && t.reports[8] == Threw
            && t.chan.delivered == w.chan.delivered && t.chan.fates == w.chan.fates && t.chan.buffer == w.chan.buffer
  {
    hide Legal, Run;
    var a := Apply(w, Begin(9, Shut, false));
    assert a.chan == w.chan.(closed := true) by {
      ClosesEmpty(w.chan);
    }
    var b := Apply(a, CloseTaskFlushes);
    var c := Apply(b, CloseTaskCloses);
    var d := Apply(c, Finish(8));
    NoSteps(d);
    StepThen(c, Finish(8), d, []);
    StepThen(b, CloseTaskCloses, c, [Finish(8)] + []);
    StepThen(a, CloseTaskFlushes, b, [CloseTaskCloses] + ([Finish(8)] + []));
    StepThen(w, Begin(9, Shut, false), a, [CloseTaskFlushes] + ([CloseTaskCloses] + ([Finish(8)] + [])));
  }

  lemma ClosesEmpty<T>(s: Chan<T>)
    requires s.receivers == [] && s.senders == []
    ensures CloseAll(s) == s.(closed := true)
  {
    CloseNothing(s.(closed := true));
    assert CloseAll(s) == CloseAll(s.(closed := true));
  }

  /** Receiver 0 waits on an unbounded channel. */
  function OneWaits(): World<int> {
    New<int>(0).(chan := Init<int>(0).(known := {0}, receivers := [0]),
                 calls := map[0 := Call(RecvStart(0, false), false, false, false, false),
                              1 := Call(RecvWait(0, false, false), false, false, false, false)])
  }

  lemma ReceiverArrives()
    ensures var w, a, b := New<int>(0), Begin(0, RecvStart(0, false), false), Begin(1, RecvWait(0, false, false), false);
            Enabled(w, a) && Enabled(Apply(w, a), b) && Apply(Apply(w, a), b) == OneWaits()
  {
    var w := New<int>(0);
    var t := Apply(w, Begin(0, RecvStart(0, false), false));
    assert t == w.(chan := Init<int>(0).(known := {0}),
                   calls := map[0 := Call(RecvStart(0, false), false, false, false, false)]);
  }

  lemma SendHandsOver(v: int)
    ensures var w, a := OneWaits(), Begin(8, TrySend(v), true); Enabled(w, a)
    ensures var t := Apply(OneWaits(), Begin(8, TrySend(v), true));
            && t.handle == Open && !t.chan.closed && t.chan.receivers == [] && t.chan.senders == []
            && 9 !in t.calls && 8 in t.calls && 8 !in t.reports
            && t.calls[8] == Call(TrySend(v), true, true, true, true)
            && t.chan.fates == map[0 := Got(v)] && t.chan.delivered == [v]
  {
  }

  /** A `send` off the loop thread that reports failure although its value was received. */
  lemma FailingSendExample(v: int)
    ensures var es := [Begin(0, RecvStart(0, false), false)] + ([Begin(1, RecvWait(0, false, false), false)] +
                      ([Begin(8, TrySend(v), true)] + CLOSES));
            var t := Run(New<int>(0), es);
            && Legal(New<int>(0), es)
            && 8 in t.reports && t.reports[8] == Threw && t.chan.fates == map[0 := Got(v)] && t.chan.delivered == [v]
  {
    hide Apply, Enabled, Legal, Run, OneWaits;
    var a: Step<int>, b: Step<int> := Begin(0, RecvStart(0, false), false), Begin(1, RecvWait(0, false, false), false);
    var c: Step<int> := Begin(8, TrySend(v), true);
    ReceiverArrives();
    SendHandsOver(v);
    var t := Apply(OneWaits(), c);
    ClosedUnderCall(t);
    StepThen(OneWaits(), c, t, CLOSES);
    StepThen(Apply(New<int>(0), a), b, OneWaits(), [c] + CLOSES);
    StepThen(New<int>(0), a, Apply(New<int>(0), a), [b] + ([c] + CLOSES));
  }

  /** A full channel of capacity 1 with sender 7 parked behind `u`. */
  function OneParked(u: int, v: int): World<int> {
    New<int>(1).(chan := Init<int>(1).(buffer := [u], offers := map[7 := v], senders := [Parked(7, v)],
                                       accepted := [u, v]),
                 calls := map[0 := Call(TrySend(u), false, true, true, false),
                              1 := Call(SendStart(7, v), false, false, false, false),
                              2 := Call(SendWait(7, v), false, false, false, false)])
  }

  function OneBuffered(u: int): World<int> {
    New<int>(1).(chan := Init<int>(1).(buffer := [u], accepted := [u]),
                 calls := map[0 := Call(TrySend(u), false, true, true, false)])
  }

  lemma FirstSend(u: int)
    ensures var w, a := New<int>(1), Begin(0, TrySend(u), false); Enabled(w, a) && Apply(w, a) == OneBuffered(u)
  {
  }

  lemma SecondParks(u: int, v: int)
    ensures var w, a, b := OneBuffered(u), Begin(1, SendStart(7, v), false), Begin(2, SendWait(7, v), false);
            Enabled(w, a) && Enabled(Apply(w, a), b) && Apply(Apply(w, a), b) == OneParked(u, v)
  {
    var w := OneBuffered(u);
    var t := Apply(w, Begin(1, SendStart(7, v), false));
    assert t == w.(chan := w.chan.(offers := map[7 := v]),
                   calls := w.calls[1 := Call(SendStart(7, v), false, false, false, false)]);
    assert Ids(t.chan.senders) == [] && [u] + [v] == [u, v];
  }

  lemma TakeAdmits(u: int, v: int)
    ensures var w, a := OneParked(u, v), Begin(8, Take, true); Enabled(w, a)
    ensures var t := Apply(OneParked(u, v), Begin(8, Take, true));
            && t.handle == Open && !t.chan.closed && t.chan.receivers == [] && t.chan.senders == []
            && 9 !in t.calls && 8 in t.calls && 8 !in t.reports
            && t.calls[8] == Call(Take, true, true, true, true)
            && t.chan.fates == map[] && t.chan.delivered == [u] && t.chan.buffer == [v]
  {
    var s := OneParked(u, v).chan;
    PumpOnce(DropHead(s).(delivered := s.delivered + [u]));
    PumpOnce(DropHead(s));
  }

  /** A `try_recv` off the loop thread that throws: `u` has left the channel, and no receiver has it. */
  lemma LostTakeExample(u: int, v: int)
    ensures var es := [Begin(0, TrySend(u), false)] + ([Begin(1, SendStart(7, v), false)] +
                      ([Begin(2, SendWait(7, v), false)] + ([Begin(8, Take, true)] + CLOSES)));
            var t := Run(New<int>(1), es);
            && Legal(New<int>(1), es)
            && 8 in t.reports && t.reports[8] == Threw && t.chan.fates == map[] && t.chan.delivered == [u]
            && t.chan.buffer == [v]
  {
    hide Apply, Enabled, Legal, Run, OneParked, OneBuffered;
    var a: Step<int>, b: Step<int> := Begin(0, TrySend(u), false), Begin(1, SendStart(7, v), false);
    var c: Step<int>, d: Step<int> := Begin(2, SendWait(7, v), false), Begin(8, Take, true);
    FirstSend(u);
    SecondParks(u, v);
    TakeAdmits(u, v);
    var t := Apply(OneParked(u, v), d);
    ClosedUnderCall(t);
    StepThen(OneParked(u, v), d, t, CLOSES);
    StepThen(Apply(OneBuffered(u), b), c, OneParked(u, v), [d] + CLOSES);
    StepThen(OneBuffered(u), b, Apply(OneBuffered(u), b), [c] + ([d] + CLOSES));
    StepThen(New<int>(1), a, OneBuffered(u), [b] + ([c] + ([d] + CLOSES)));
  }

  // ---------------------------------------------------------------- the implementation

  /** The handle of a channel: requests for a flush, and the task that `close` posts. */
  class Notifier<T> {
    const channel: MC.MessageChannel<T>
    var handle: Handle
    var signalled: bool

    constructor (capacity: nat)
      ensures channel.Valid() && fresh(channel)
      ensures channel.view == New<T>(capacity).chan && handle == Open && !signalled
    {
      channel := new MC.MessageChannel(capacity);
      handle, signalled := Open, false;
    }

    /** `finalize_after_unlock`, for a call that has left its locked region. */
    method FinalizeAfterUnlock(wake: bool, loopThread: bool) returns (threw: bool)
      requires channel.Valid()
      modifies this, channel
      ensures channel.Valid() && handle == old(handle) && threw == NotifyThrows(old(handle), wake, !loopThread)
      ensures channel.view == if wake && loopThread then Flush(old(channel.view)) else old(channel.view)
      ensures signalled == (old(signalled) || (wake && !loopThread && !threw))
    {
      threw := false;
      if !wake {
        return;
      }
      if loopThread {
        ghost var es := Flushing.FlushReadyWaiters(channel, []);
        return;
      }
      if handle == Closing {
        return true;
      }
      signalled := true;
    }

    /** The callback of the handle, on the loop thread. */
    method OnAsync()
      requires channel.Valid() && signalled
      modifies this, channel
      ensures channel.Valid() && channel.view == Flush(old(channel.view)) && !signalled && handle == old(handle)
    {
      signalled := false;
      ghost var es := Flushing.FlushReadyWaiters(channel, []);
    }

    /** `close`: the region, and the task it posts the first time. */
    method Close()
      requires channel.Valid() && (handle == Open <==> !channel.view.closed)
      modifies this, channel
      ensures channel.Valid() && channel.view == CloseAll(old(channel.view)) && signalled == old(signalled)
      ensures handle == if old(handle) == Open then TaskPosted else old(handle)
    {
      var schedule := channel.Close();
      if schedule {
        handle := TaskPosted;
      }
    }

    /** The posted task flushes, then closes the handle. */
    method CloseTaskFlush()
      requires channel.Valid() && handle == TaskPosted
      modifies this, channel
      ensures channel.Valid() && channel.view == Flush(old(channel.view))
      ensures handle == TaskFlushed && signalled == old(signalled)
    {
      ghost var es := Flushing.FlushReadyWaiters(channel, []);
      handle := TaskFlushed;
    }

    method CloseTaskClose()
      requires handle == TaskFlushed
      modifies `handle, `signalled
      ensures handle == Closing && !signalled
    {
      handle, signalled := Closing, false;
    }
  }
}
