/** `task_scope`: children counted in and out, the first failure kept, completions signalled over a channel that the
    last child closes, and a `join` that loops over receives.  The state machine below has one step for each region
    between two points where another thread may run; children are counted by what they do next.  The completion
    channel is the FIFO line that `ChannelRuns` proves every unbounded channel to be. */
module TaskScope {
  import opened Waiters
  import opened Counting
  import opened ChannelSpec
  import opened ChannelRuns

  datatype Result<+E> = Returned | Threw(error: E) | Cancelled | LeakedClosed

  /** Where `join` stands: at the loop head, before the locked check, before the receive, between the two attempts of
      the receive, suspended in it, in the handler of a receive that threw closed, or finished. */
  datatype JoinPc<+E> = Top | Check | Receive | Retry | Waiting | Handler | Done(result: Result<E>)

  /** The stop callback of `join`: first it requests stop, then it sends a token. */
  datatype Callback = Idle | Half | Sent

  datatype Scope<+E> = Scope(
    active: nat,
    firstException: Option<E>,
    stopRequested: bool,
    completions: Queue<()>,
    running: nat,              // children whose task is not finished
    recorded: nat,             // failed, about to request stop
    leaving: nat,              // about to count themselves out
    closing: nat,              // saw the count reach zero, about to close the channel
    signalling: nat,           // about to send a token
    join: JoinPc<E>,
    cancelled: bool,           // the local flag of `join`
    joinStop: bool,            // the external stop token
    callback: Callback,
    spawned: nat,
    failures: seq<E>,          // in the order the children recorded them
    emptied: bool,             // the count has returned to zero
    respawned: bool,           // a child was spawned after that
    tokens: nat,               // tokens the channel took
    receives: nat,             // receives `join` completed
    ended: bool)               // one of them found the channel closed

  datatype Event<+E> =
    | Spawn | Succeed | Fail(error: E) | StopSiblings | Leave | Close | Signal   // children
    | RequestStop | RequestJoinStop | CallbackStop | CallbackSend                // stop tokens
    | JoinTop | JoinCheck | JoinReceive | JoinRetry | JoinResume | JoinHandle                 // join

  const NO_COMPLETIONS: Queue<()> := Queue([], [], false, map[], [])

  function Init<E>(): Scope<E> {
    Scope(0, None, false, NO_COMPLETIONS, 0, 0, 0, 0, 0, Top, false, false, Idle, 0, [], false, false, 0, 0, false)
  }

  predicate Enabled<E>(s: Scope<E>, e: Event<E>) {
    match e
    case Succeed => s.running > 0
    case Fail(_) => s.running > 0
    case StopSiblings => s.recorded > 0
    case Leave => s.leaving > 0 && s.active > 0
    case Close => s.closing > 0
    case Signal => s.signalling > 0
    case CallbackStop => s.joinStop && s.callback == Idle
    case CallbackSend => s.callback == Half
    case JoinTop => s.join == Top
    case JoinCheck => s.join == Check
    case JoinReceive => s.join == Receive
    case JoinRetry => s.join == Retry
    case JoinResume => s.join == Waiting && s.receives in s.completions.fates
    case JoinHandle => s.join == Handler
    case _ => true
  }

  function Finished<E>(s: Scope<E>): Result<E> {
    if s.firstException.Some? then Threw(s.firstException.value) else if s.cancelled then Cancelled else Returned
  }

  /** A token is dropped if the channel is closed. */
  ghost function SendToken<E>(s: Scope<E>): Scope<E> {
    s.(completions := QueueStep(0, s.completions, TrySend(())),
       tokens := if s.completions.closed then s.tokens else s.tokens + 1)
  }

  ghost function Apply<E>(s: Scope<E>, e: Event<E>): Scope<E>
    requires Enabled(s, e)
  {
    match e
    case Spawn =>
      s.(active := s.active + 1, running := s.running + 1, spawned := s.spawned + 1,
         respawned := s.respawned || s.emptied)
    case Succeed => s.(running := s.running - 1, leaving := s.leaving + 1)
    case Fail(x) =>
      s.(running := s.running - 1, recorded := s.recorded + 1, failures := s.failures + [x],
         firstException := if s.firstException.None? then Some(x) else s.firstException)
    case StopSiblings => s.(recorded := s.recorded - 1, leaving := s.leaving + 1, stopRequested := true)
    case Leave =>
      s.(leaving := s.leaving - 1, active := s.active - 1, emptied := s.emptied || s.active == 1,
         closing := if s.active == 1 then s.closing + 1 else s.closing,
         signalling := if s.active == 1 then s.signalling else s.signalling + 1)
    case Close => s.(closing := s.closing - 1, completions := QueueStep(0, s.completions, Shut))
    case Signal => SendToken(s).(signalling := s.signalling - 1)
    case RequestStop => s.(stopRequested := true)
    case RequestJoinStop => s.(joinStop := true)
    case CallbackStop => s.(stopRequested := true, callback := Half)
    case CallbackSend => SendToken(s).(callback := Sent)
    case JoinTop =>
      s.(join := Check, cancelled := s.cancelled || s.joinStop, stopRequested := s.stopRequested || s.joinStop)
    case JoinCheck => s.(join := if s.active == 0 then Done(Finished(s)) else Receive)
    case JoinReceive => Received(s, RecvStart(s.receives, false))
    case JoinRetry => Received(s, RecvWait(s.receives, false, false))
    case JoinResume => Woken(s)
    case JoinHandle => s.(join := Done(if s.active == 0 then Finished(s) else LeakedClosed))
  }

  /** One attempt of the receive. */
  ghost function Received<E>(s: Scope<E>, e: ChannelRuns.Event<()>): Scope<E> {
    var q := QueueStep(0, s.completions, e);
    s.(completions := q,
       join := if s.receives in q.fates then AfterReceive(q.fates[s.receives])
               else if e.RecvStart? then Retry else Waiting,
       receives := if s.receives in q.fates then s.receives + 1 else s.receives,
       ended := s.ended || (s.receives in q.fates && !q.fates[s.receives].Got?))
  }

  /** The receive has completed, with a token or with closed; the latter lands in the handler of `join`. */
  function AfterReceive<E>(fate: Fate<()>): JoinPc<E> {
    if fate.Got? then Top else Handler
  }

  function Woken<E>(s: Scope<E>): Scope<E>
    requires s.receives in s.completions.fates
  {
    var fate := s.completions.fates[s.receives];
    s.(join := AfterReceive(fate), receives := s.receives + 1, ended := s.ended || !fate.Got?)
  }

  ghost predicate Legal<E>(s: Scope<E>, es: seq<Event<E>>)
    decreases |es|
  {
    es != [] ==> Enabled(s, es[0]) && Legal(Apply(s, es[0]), es[1..])
  }

  ghost function Run<E>(s: Scope<E>, es: seq<Event<E>>): Scope<E>
    requires Legal(s, es)
    decreases |es|
  {
    if es == [] then s else Run(Apply(s, es[0]), es[1..])
  }

  // ---------------------------------------------------------------- invariants

  ghost predicate Children<E>(s: Scope<E>) {
    && s.active == s.running + s.recorded + s.leaving <= s.spawned
    && (s.spawned > 0 && s.active == 0 ==> s.emptied)
    && (s.failures == [] ==> s.firstException == None)
    && (s.failures != [] ==> s.firstException == Some(s.failures[0]) && (s.recorded > 0 || s.stopRequested))
    && (s.cancelled ==> s.joinStop && s.stopRequested)
    && (s.emptied <==> s.closing > 0 || s.completions.closed)
    && (s.emptied && !s.respawned ==> s.active == 0)
  }

  /** `join` is the only receiver, and each receive is paid for by a token or by the close. */
  ghost predicate Channel<E>(s: Scope<E>) {
    var q := s.completions;
    && q.waiting == (if s.join == Waiting && s.receives !in q.fates then [s.receives] else [])
    && (q.waiting != [] ==> q.line == [] && !q.closed)
    && (forall w :: w in q.fates ==> w < s.receives || (w == s.receives && s.join == Waiting))
    && (s.receives in q.fates ==> q.fates[s.receives].Got? || q.fates[s.receives] == SawClosed)
    && (EndSeen(s) ==> q.closed)
    && |q.handed| + |q.line| == s.tokens
    && s.receives + One(s.receives in q.fates) <= |q.handed| + One(EndSeen(s))
    && (s.join in {Receive, Retry, Waiting} ==> s.spawned > 0)
    && (s.ended ==> s.join == Handler || s.join.Done?) && (s.join == Handler ==> s.ended)
  }

  /** The one receive that brings no token. */
  predicate EndSeen<E>(s: Scope<E>) {
    s.ended || (s.receives in s.completions.fates && s.completions.fates[s.receives] == SawClosed)
  }

  /** Every child signals at most once, and one that empties the scope does not; the callback signals once. */
  ghost predicate Tokens<E>(s: Scope<E>) {
    s.tokens + s.signalling + One(s.callback != Sent) + s.active + One(s.emptied) <= s.spawned + 1
  }

  ghost predicate Inv<E>(s: Scope<E>) {
    Children(s) && Channel(s) && Tokens(s)
  }

  // What the few steps the scope takes on its channel do.

  lemma TokenStep(q: Queue<()>)
    ensures QueueStep(0, q, TrySend(())) ==
            if q.closed then q else if q.waiting == [] then q.(line := q.line + [()])
            else q.(waiting := q.waiting[1..], fates := q.fates[q.waiting[0] := Got(())], handed := q.handed + [()])
  {
  }

  lemma ShutStep(q: Queue<()>, w: Id)
    requires q.waiting == [] || q.waiting == [w]
    ensures QueueStep(0, q, Shut) ==
            q.(waiting := [], closed := true, fates := if q.waiting == [] then q.fates else q.fates[w := SawClosed])
  {
    assert AllTo<Fate<()>>(q.waiting, SawClosed).Keys == if q.waiting == [] then {} else {w};
  }

  lemma RecvStep(q: Queue<()>, w: Id, start: bool)
    ensures QueueStep(0, q, if start then RecvStart(w, false) else RecvWait(w, false, false)) ==
            if q.line != [] then
              q.(line := q.line[1..], fates := q.fates[w := Got(q.line[0])], handed := q.handed + [q.line[0]])
            else if q.closed then q.(fates := q.fates[w := SawClosed])
            else if start then q else q.(waiting := q.waiting + [w])
  {
  }

  lemma TokenKeeps<E>(s: Scope<E>)
    requires Channel(s)
    ensures Channel(SendToken(s)) && SendToken(s).completions.closed == s.completions.closed
  {
    hide QueueStep;
    TokenStep(s.completions);
  }

  lemma ShutKeeps<E>(s: Scope<E>)
    requires Channel(s)
    ensures Channel(s.(completions := QueueStep(0, s.completions, Shut)))
    ensures QueueStep(0, s.completions, Shut).closed
  {
    hide QueueStep;
    ShutStep(s.completions, s.receives);
  }

  lemma ReceivedKeeps<E>(s: Scope<E>, e: ChannelRuns.Event<()>)
    requires Channel(s)
    requires (s.join == Receive && e == RecvStart(s.receives, false))
          || (s.join == Retry && e == RecvWait(s.receives, false, false))
    ensures Channel(Received(s, e))
  {
    hide QueueStep;
    RecvStep(s.completions, s.receives, s.join == Receive);
  }

  lemma ReceivedFrame<E>(s: Scope<E>, e: ChannelRuns.Event<()>)
    requires Channel(s)
    requires (s.join == Receive && e == RecvStart(s.receives, false))
          || (s.join == Retry && e == RecvWait(s.receives, false, false))
    ensures var t := Received(s, e);
            && t.completions.closed == s.completions.closed
            && t == s.(completions := t.completions, join := t.join, receives := t.receives, ended := t.ended)
  {
    hide QueueStep;
    RecvStep(s.completions, s.receives, s.join == Receive);
  }

  /** Steps away from the channel. */
  lemma ChildStepKeeps<E>(s: Scope<E>, e: Event<E>)
    requires Inv(s) && Enabled(s, e)
    requires ChildStep(e) || StopStep(e)
    ensures Inv(Apply(s, e))
  {
    hide QueueStep, Received, SendToken, Woken, Channel, Children, Tokens;
    ChannelFrame(s, Apply(s, e));
    ChildrenFollow(s, e);
    TokensFollow(s, e);
  }

  predicate ChildStep<E>(e: Event<E>) {
    e.Spawn? || e.Succeed? || e.Fail? || e.StopSiblings? || e.Leave?
  }

  predicate StopStep<E>(e: Event<E>) {
    e.RequestStop? || e.RequestJoinStop? || e.CallbackStop?
  }

  lemma ChildrenFollow<E>(s: Scope<E>, e: Event<E>)
    requires Children(s) && Enabled(s, e) && (ChildStep(e) || StopStep(e))
    ensures Children(Apply(s, e))
  {
    hide QueueStep, Received, SendToken, Woken;
    if e.Fail? {
      assert s.failures == [] ==> (s.failures + [e.error])[0] == e.error;
    }
  }

  lemma SpawnTokens<E>(s: Scope<E>)
    requires Tokens(s)
    ensures Tokens(Apply(s, Spawn))
  {
  }

  lemma LeaveTokens<E>(s: Scope<E>)
    requires Tokens(s) && Enabled(s, Leave)
    ensures Tokens(Apply(s, Leave))
  {
    var t := Apply(s, Leave);
    assert t.active + t.signalling + One(t.emptied) <= s.active + s.signalling + One(s.emptied);
  }

  lemma TokensFollow<E>(s: Scope<E>, e: Event<E>)
    requires Tokens(s) && Enabled(s, e) && (ChildStep(e) || StopStep(e))
    ensures Tokens(Apply(s, e))
  {
    hide QueueStep, Received, SendToken, Woken, Tokens;
    if e.Spawn? {
      SpawnTokens(s);
    } else if e.Leave? {
      LeaveTokens(s);
    } else {
      SameTokens(s, Apply(s, e));
    }
  }

  lemma SameTokens<E>(s: Scope<E>, t: Scope<E>)
    requires Tokens(s) && t.tokens == s.tokens && t.signalling == s.signalling && t.active == s.active
    requires t.emptied == s.emptied && t.spawned == s.spawned && (s.callback == Sent ==> t.callback == Sent)
    ensures Tokens(t)
  {
  }

  lemma ChannelFrame<E>(s: Scope<E>, t: Scope<E>)
    requires Channel(s) && t.completions == s.completions && t.join == s.join && t.receives == s.receives
    requires t.tokens == s.tokens && t.ended == s.ended && t.spawned >= s.spawned
    ensures Channel(t)
  {
  }

  lemma JoinStepKeeps<E>(s: Scope<E>, e: Event<E>)
    requires Inv(s) && Enabled(s, e) && (e.JoinTop? || e.JoinCheck? || e.JoinHandle?)
    ensures Inv(Apply(s, e))
  {
    hide QueueStep, Received, SendToken, Woken;
  }

  lemma ResumeKeeps<E>(s: Scope<E>)
    requires Inv(s) && Enabled(s, JoinResume)
    ensures Inv(Woken(s))
  {
  }

  lemma ApplyKeeps<E>(s: Scope<E>, e: Event<E>)
    requires Inv(s) && Enabled(s, e)
    ensures Inv(Apply(s, e))
  {
    match e {
      case Close => CloseStepKeeps(s);
      case Signal => SignalKeeps(s);
      case CallbackSend => SignalKeeps(s);
      case JoinReceive => ReceiveStepKeeps(s, RecvStart(s.receives, false));
      case JoinRetry => ReceiveStepKeeps(s, RecvWait(s.receives, false, false));
      case JoinTop => JoinStepKeeps(s, e);
      case JoinCheck => JoinStepKeeps(s, e);
      case JoinHandle => JoinStepKeeps(s, e);
      case JoinResume => ResumeKeeps(s);
      case _ => ChildStepKeeps(s, e);
    }
  }

  lemma CloseStepKeeps<E>(s: Scope<E>)
    requires Inv(s) && s.closing > 0
    ensures Inv(Apply(s, Close))
  {
    hide QueueStep, Received;
    ShutKeeps(s);
  }

  lemma ReceiveStepKeeps<E>(s: Scope<E>, e: ChannelRuns.Event<()>)
    requires Inv(s)
    requires (s.join == Receive && e == RecvStart(s.receives, false))
          || (s.join == Retry && e == RecvWait(s.receives, false, false))
    ensures Inv(Received(s, e))
  {
    hide Received, Channel;
    ReceivedKeeps(s, e);
    ReceivedFrame(s, e);
  }

  lemma SignalKeeps<E>(s: Scope<E>)
    requires Inv(s)
    ensures s.signalling > 0 ==> Inv(SendToken(s).(signalling := s.signalling - 1))
    ensures s.callback == Half ==> Inv(SendToken(s).(callback := Sent))
  {
    hide QueueStep;
    TokenKeeps(s);
  }

  lemma {:induction false} RunsKeepInv<E>(s: Scope<E>, es: seq<Event<E>>)
    requires Inv(s) && Legal(s, es)
    ensures Inv(Run(s, es))
    decreases |es|
  {
    if es == [] {
    } else {
      ApplyKeeps(s, es[0]);
      RunsKeepInv(Apply(s, es[0]), es[1..]);
    }
  }

  lemma InitInv<E>()
    ensures Inv(Init<E>())
  {
  }

  // ---------------------------------------------------------------- what join promises

  lemma OnlyChecksEnd<E>(s: Scope<E>, e: Event<E>)
    requires Enabled(s, e) && !s.join.Done? && Apply(s, e).join.Done?
    ensures e.JoinCheck? || e.JoinHandle?
  {
    hide QueueStep;
  }

  lemma HandlerSawClose<E>(s: Scope<E>)
    requires Channel(s)
    ensures s.join == Handler ==> s.completions.closed
  {
  }

  /** The report of a `join` that ends in state `s`. */
  ghost predicate Reports<E>(s: Scope<E>, r: Result<E>) {
    && (r == LeakedClosed <==> s.active > 0)
    && (r == LeakedClosed ==> s.respawned)
    && (r != LeakedClosed ==>
          && s.running == s.recorded == s.leaving == 0
          && r == (if s.failures != [] then Threw(s.failures[0]) else if s.cancelled then Cancelled else Returned)
          && (s.failures != [] || s.cancelled ==> s.stopRequested))
  }

  /** `join` ends with all children gone and reports the first failure (stop having been requested), else the stop it
      saw, else nothing.  The one other end, leaking the closed error, happens exactly with children still active, and
      only if a child was spawned after the count had returned to zero. */
  lemma JoinOutcome<E>(s: Scope<E>, e: Event<E>)
    requires Inv(s) && Enabled(s, e) && !s.join.Done? && Apply(s, e).join.Done?
    ensures Reports(s, Apply(s, e).join.result)
  {
    hide Channel, Tokens, Received, Woken, SendToken;
    OnlyChecksEnd(s, e);
    assert s.join == Handler ==> s.completions.closed by {
      HandlerSawClose(s);
    }
  }

  /** The same over every run of a new scope, whatever the children, the stop tokens and the scheduling. */
  lemma JoinOverRuns<E>(es: seq<Event<E>>, e: Event<E>)
    requires Legal(Init<E>(), es) && Enabled(Run(Init<E>(), es), e)
    requires !Run(Init<E>(), es).join.Done? && Apply(Run(Init<E>(), es), e).join.Done?
    ensures Reports(Run(Init<E>(), es), Apply(Run(Init<E>(), es), e).join.result)
  {
    hide Apply, Inv, Reports, Enabled;
    InitInv<E>();
    RunsKeepInv(Init<E>(), es);
    JoinOutcome(Run(Init<E>(), es), e);
  }

  // The same in terms of what happened, read off the events of the run alone.

  /** The errors children failed with, in order. */
  function FailuresIn<E>(es: seq<Event<E>>): seq<E> {
    if es == [] then [] else (if es[0].Fail? then [es[0].error] else []) + FailuresIn(es[1..])
  }

  /** Children spawned, and children that counted themselves out. */
  function SpawnsIn<E>(es: seq<Event<E>>): nat {
    if es == [] then 0 else One(es[0].Spawn?) + SpawnsIn(es[1..])
  }

  function LeavesIn<E>(es: seq<Event<E>>): nat {
    if es == [] then 0 else One(es[0].Leave?) + LeavesIn(es[1..])
  }

  predicate StopAsked<E>(es: seq<Event<E>>) {
    exists i :: 0 <= i < |es| && es[i].RequestJoinStop?
  }

  /** `join` came to its loop head after its stop token was requested. */
  predicate StopSeen<E>(es: seq<Event<E>>) {
    exists i, j :: 0 <= i < j < |es| && es[i].RequestJoinStop? && es[j].JoinTop?
  }

  /** Somebody requested stop on the scope: a child that failed, the client, or `join` for its own token. */
  predicate StopPassedOn<E>(es: seq<Event<E>>) {
    StopSeen(es) || exists i :: 0 <= i < |es| && (es[i].StopSiblings? || es[i].RequestStop? || es[i].CallbackStop?)
  }

  /** What the fields of a scope say about the events so far. */
  ghost predicate Records<E>(s: Scope<E>, es: seq<Event<E>>) {
    && s.failures == FailuresIn(es) && s.spawned == SpawnsIn(es) && s.active + LeavesIn(es) == SpawnsIn(es)
    && (s.joinStop <==> StopAsked(es)) && (s.cancelled <==> StopSeen(es)) && (s.stopRequested <==> StopPassedOn(es))
  }

  lemma {:induction false} OneMore<E>(es: seq<Event<E>>, e: Event<E>)
    ensures FailuresIn(es + [e]) == FailuresIn(es) + (if e.Fail? then [e.error] else [])
    ensures SpawnsIn(es + [e]) == SpawnsIn(es) + One(e.Spawn?)
    ensures LeavesIn(es + [e]) == LeavesIn(es) + One(e.Leave?)
  {
    if es == [] {
      assert es + [e] == [e] && [e][1..] == [];
    } else {
      assert (es + [e])[0] == es[0] && (es + [e])[1..] == es[1..] + [e];
      OneMore(es[1..], e);
      var head := if es[0].Fail? then [es[0].error] else [];
      var last := if e.Fail? then [e.error] else [];
      assert head + (FailuresIn(es[1..]) + last) == (head + FailuresIn(es[1..])) + last;
    }
  }

  lemma StopOneMore<E>(es: seq<Event<E>>, e: Event<E>)
    ensures StopAsked(es + [e]) <==> StopAsked(es) || e.RequestJoinStop?
    ensures StopSeen(es + [e]) <==> StopSeen(es) || (StopAsked(es) && e.JoinTop?)
    ensures StopPassedOn(es + [e]) <==>
            StopPassedOn(es) || (StopAsked(es) && e.JoinTop?) || e.StopSiblings? || e.RequestStop? || e.CallbackStop?
  {
    var all := es + [e];
    assert all[|es|] == e && forall i :: 0 <= i < |es| ==> all[i] == es[i];
    AskedOneMore(es, e);
    SeenOneMore(es, e);
    if i :| 0 <= i < |es| && (es[i].StopSiblings? || es[i].RequestStop? || es[i].CallbackStop?) {
      assert all[i] == es[i];
    }
  }

  lemma AskedOneMore<E>(es: seq<Event<E>>, e: Event<E>)
    ensures StopAsked(es + [e]) <==> StopAsked(es) || e.RequestJoinStop?
  {
    var all := es + [e];
    assert all[|es|] == e;
    if i :| 0 <= i < |es| && es[i].RequestJoinStop? {
      assert all[i] == es[i];
    }
  }

  lemma SeenOneMore<E>(es: seq<Event<E>>, e: Event<E>)
    ensures StopSeen(es + [e]) <==> StopSeen(es) || (StopAsked(es) && e.JoinTop?)
  {
    var all := es + [e];
    assert all[|es|] == e;
    if i, j :| 0 <= i < j < |es| && es[i].RequestJoinStop? && es[j].JoinTop? {
      assert all[i] == es[i] && all[j] == es[j];
    }
    if i :| 0 <= i < |es| && es[i].RequestJoinStop? && e.JoinTop? {
      assert all[i] == es[i] && all[|es|].JoinTop?;
    }
    if i, j :| 0 <= i < j < |all| && all[i].RequestJoinStop? && all[j].JoinTop? {
      assert es[i] == all[i];
      assert j < |es| ==> es[j] == all[j];
    }
  }

  /** What one step does to the recorded fields. */
  ghost predicate StepRecorded<E>(s: Scope<E>, t: Scope<E>, e: Event<E>) {
    && t.failures == s.failures + (if e.Fail? then [e.error] else [])
    && t.spawned == s.spawned + One(e.Spawn?)
    && t.active + One(e.Leave?) == s.active + One(e.Spawn?)
    && (t.joinStop <==> s.joinStop || e.RequestJoinStop?)
    && (t.cancelled <==> s.cancelled || (s.joinStop && e.JoinTop?))
    && (t.stopRequested <==> s.stopRequested || (s.joinStop && e.JoinTop?)
                             || e.StopSiblings? || e.RequestStop? || e.CallbackStop?)
  }

  lemma ChildRecords<E>(s: Scope<E>, e: Event<E>)
    requires Enabled(s, e) && ChildStep(e)
    ensures StepRecorded(s, Apply(s, e), e)
  {
    hide QueueStep, Received, SendToken, Woken;
  }

  lemma StopRecords<E>(s: Scope<E>, e: Event<E>)
    requires Enabled(s, e) && StopStep(e)
    ensures StepRecorded(s, Apply(s, e), e)
  {
    hide QueueStep, Received, SendToken, Woken;
  }

  lemma JoinRecords<E>(s: Scope<E>, e: Event<E>)
    requires Enabled(s, e) && (e.JoinTop? || e.JoinCheck? || e.JoinHandle?)
    ensures StepRecorded(s, Apply(s, e), e)
  {
    hide QueueStep, Received, SendToken, Woken;
  }

  lemma ReceiveRecords<E>(s: Scope<E>, e: Event<E>)
    requires Enabled(s, e) && (e.JoinReceive? || e.JoinRetry? || e.JoinResume?)
    ensures StepRecorded(s, Apply(s, e), e)
  {
    hide QueueStep, SendToken;
  }

  lemma SendRecords<E>(s: Scope<E>, e: Event<E>)
    requires Enabled(s, e) && (e.Close? || e.Signal? || e.CallbackSend?)
    ensures StepRecorded(s, Apply(s, e), e)
  {
    hide QueueStep, Received, Woken;
  }

  lemma StepRecords<E>(s: Scope<E>, e: Event<E>)
    requires Enabled(s, e)
    ensures StepRecorded(s, Apply(s, e), e)
  {
    hide Apply, Enabled, StepRecorded;
    match e {
      case JoinTop => JoinRecords(s, e);
      case JoinCheck => JoinRecords(s, e);
      case JoinHandle => JoinRecords(s, e);
      case JoinReceive => ReceiveRecords(s, e);
      case JoinRetry => ReceiveRecords(s, e);
      case JoinResume => ReceiveRecords(s, e);
      case Close => SendRecords(s, e);
      case Signal => SendRecords(s, e);
      case CallbackSend => SendRecords(s, e);
      case RequestStop => StopRecords(s, e);
      case RequestJoinStop => StopRecords(s, e);
      case CallbackStop => StopRecords(s, e);
      case _ => ChildRecords(s, e);
    }
  }

  lemma {:induction false} RunRecords<E>(es: seq<Event<E>>)
    requires Legal(Init<E>(), es)
    ensures Records(Run(Init<E>(), es), es)
  {
    hide Apply, Enabled, Inv, Legal, Run, StopAsked, StopSeen, StopPassedOn;
    if es == [] {
      NoSteps(Init<E>());
      NothingAsked<E>();
    } else {
      var front, e := es[..|es| - 1], es[|es| - 1];
      assert es == front + [e];
      LegalFront(Init<E>(), front, e);
      RunRecords(front);
      StepRecords(Run(Init<E>(), front), e);
      OneMore(front, e);
      StopOneMore(front, e);
    }
  }

  lemma NothingAsked<E>()
    ensures !StopAsked<E>([]) && !StopSeen<E>([]) && !StopPassedOn<E>([])
  {
  }

  lemma {:induction false} LegalFront<E>(s: Scope<E>, front: seq<Event<E>>, e: Event<E>)
    requires Legal(s, front + [e])
    ensures Legal(s, front) && Enabled(Run(s, front), e) && Run(s, front + [e]) == Apply(Run(s, front), e)
    decreases |front|
  {
    hide Apply, Enabled;
    if front == [] {
      assert front + [e] == [e] && [e][1..] == [];
    } else {
      assert (front + [e])[0] == front[0] && (front + [e])[1..] == front[1..] + [e];
      LegalFront(Apply(s, front[0]), front[1..], e);
    }
  }

  /** When `join` ends, whatever has happened: every child that was spawned has counted itself out, unless it leaks the
      closed error; it throws the error the first child failed with, else it throws cancelled exactly if it came to its
      loop head after its stop token was requested, else it returns. */
  lemma JoinTellsWhatHappened<E>(es: seq<Event<E>>, e: Event<E>)
    requires Legal(Init<E>(), es) && Enabled(Run(Init<E>(), es), e)
    requires !Run(Init<E>(), es).join.Done? && Apply(Run(Init<E>(), es), e).join.Done?
    ensures var r := Apply(Run(Init<E>(), es), e).join.result;
            && (r == LeakedClosed <==> LeavesIn(es) < SpawnsIn(es))
            && (r != LeakedClosed ==>
                  r == if FailuresIn(es) != [] then Threw(FailuresIn(es)[0])
                       else if StopSeen(es) then Cancelled else Returned)
            && (r != LeakedClosed && (FailuresIn(es) != [] || StopSeen(es)) ==> StopPassedOn(es))
  {
    hide Apply, Inv, Enabled, Legal, Run, StopAsked, StopSeen, StopPassedOn;
    JoinOverRuns(es, e);
    RunRecords(es);
  }

  /** At most one receive per child, and one more. */
  lemma ReceivesBounded<E>(es: seq<Event<E>>)
    requires Legal(Init<E>(), es)
    ensures var s := Run(Init<E>(), es); s.receives <= s.spawned + 1
  {
    hide Apply, Channel, Children, Tokens;
    InitInv<E>();
    RunsKeepInv(Init<E>(), es);
    ReceivesPaid(Run(Init<E>(), es));
  }

  lemma ReceivesPaid<E>(s: Scope<E>)
    requires Inv(s)
    ensures s.receives <= s.spawned + 1
  {
  }

  /** `join` is never left waiting: while it is suspended without an answer, some child has yet to count itself out
      or to close the channel. */
  lemma JoinNotStranded<E>(s: Scope<E>)
    requires Inv(s) && s.join == Waiting && s.receives !in s.completions.fates
    ensures s.running + s.recorded + s.leaving + s.closing > 0
  {
  }

  lemma {:induction false} RunConcat<E>(s: Scope<E>, a: seq<Event<E>>, b: seq<Event<E>>)
    requires Legal(s, a) && Legal(Run(s, a), b)
    ensures Legal(s, a + b) && Run(s, a + b) == Run(Run(s, a), b)
    decreases |a|
  {
    if a == [] {
      assert a + b == b;
    } else {
      assert (a + b)[0] == a[0] && (a + b)[1..] == a[1..] + b;
      RunConcat(Apply(s, a[0]), a[1..], b);
    }
  }

  lemma NoSteps<E>(s: Scope<E>)
    ensures Legal(s, []) && Run(s, []) == s
  {
  }

  /** A run of steps in front of another. */
  lemma StepThen<E>(s: Scope<E>, e: Event<E>, es: seq<Event<E>>)
    requires Enabled(s, e) && Legal(Apply(s, e), es)
    ensures Legal(s, [e] + es) && Run(s, [e] + es) == Run(Apply(s, e), es)
  {
    assert ([e] + es)[1..] == es;
  }

  lemma TwoSteps<E>(s: Scope<E>, e: Event<E>, f: Event<E>)
    requires Enabled(s, e) && Enabled(Apply(s, e), f)
    ensures Legal(s, [e, f]) && Run(s, [e, f]) == Apply(Apply(s, e), f)
  {
    hide Apply, Enabled, Legal, Run;
    NoSteps(Apply(Apply(s, e), f));
    StepThen(Apply(s, e), f, []);
    StepThen(s, e, [f] + []);
    assert [e] + ([f] + []) == [e, f];
  }

  /** The loop of `join` up to the check. */
  lemma JoinChecks<E>(s: Scope<E>)
    requires s.join == Top
    ensures Enabled(s, JoinTop) && Enabled(Apply(s, JoinTop), JoinCheck)
    ensures var t := Apply(Apply(s, JoinTop), JoinCheck);
            && t.active == s.active && t.completions == s.completions && t.receives == s.receives
            && (if s.active == 0 then t.join.Done? && t.join.result != LeakedClosed else t.join == Receive)
  {
  }

  /** The rest of the loop on a closed channel that holds no token. */
  lemma JoinFindsClosed<E>(s: Scope<E>)
    requires s.join == Receive && s.active > 0 && s.completions.closed && s.completions.line == []
    ensures Enabled(s, JoinReceive) && Enabled(Apply(s, JoinReceive), JoinHandle)
    ensures Apply(Apply(s, JoinReceive), JoinHandle).join == Done(LeakedClosed)
  {
    hide QueueStep;
    RecvStep(s.completions, s.receives, true);
  }

  /** `join` alone, from its head to its end, on a scope that is closed and drained. */
  function JoinAlone<E>(active: nat): seq<Event<E>> {
    [JoinTop, JoinCheck] + (if active == 0 then [] else [JoinReceive, JoinHandle])
  }

  /** A token wakes a suspended `join`: from the stop callback, so that a stop is seen, as from a child. */
  lemma TokenWakesJoin<E>(s: Scope<E>, e: Event<E>)
    requires Inv(s) && Enabled(s, e) && (e.Signal? || e.CallbackSend?)
    requires s.join == Waiting && s.receives !in s.completions.fates
    ensures var t := Apply(s, e); t.join == Waiting && Enabled(t, JoinResume) && Woken(t).join == Top
  {
    hide QueueStep;
    TokenStep(s.completions);
  }

  /** A token that nobody waits for stays for the next receive. */
  lemma TokenStays<E>(s: Scope<E>, e: Event<E>)
    requires Inv(s) && Enabled(s, e) && (e.Signal? || e.CallbackSend?) && !s.completions.closed
    ensures var q, r := s.completions, Apply(s, e).completions;
            |r.handed| + |r.line| == |q.handed| + |q.line| + 1 && (q.waiting == [] ==> r.line == q.line + [()])
  {
    hide QueueStep;
    TokenStep(s.completions);
  }

  /** A scope that has emptied, closed and been drained: a new `join` leaks exactly if a child was spawned since. */
  lemma LeakIff<E>(s: Scope<E>)
    requires s.join == Top && s.completions.closed && s.completions.line == []
    ensures Legal(s, JoinAlone(s.active)) && Run(s, JoinAlone(s.active)).join.Done?
    ensures Run(s, JoinAlone(s.active)).join.result == LeakedClosed <==> s.active > 0
  {
    hide Apply, Enabled, Legal, Run;
    JoinChecks(s);
    TwoSteps(s, JoinTop, JoinCheck);
    var t := Apply(Apply(s, JoinTop), JoinCheck);
    if s.active == 0 {
      NoSteps(t);
      RunConcat(s, [JoinTop, JoinCheck], []);
    } else {
      JoinFindsClosed(t);
      TwoSteps(t, JoinReceive, JoinHandle);
      RunConcat(s, [JoinTop, JoinCheck], [JoinReceive, JoinHandle]);
    }
  }

  /** The scope after its only child has left and closed the channel. */
  function Emptied(): Scope<int> {
    Init<int>().(spawned := 1, emptied := true, completions := NO_COMPLETIONS.(closed := true))
  }

  lemma FirstChildLeaves()
    ensures var s := Init<int>();
            && Enabled(s, Spawn) && Enabled(Apply(s, Spawn), Succeed)
            && Apply(Apply(s, Spawn), Succeed) == s.(active := 1, leaving := 1, spawned := 1)
  {
  }

  lemma FirstChildCounts()
    ensures var s := Init<int>().(active := 1, leaving := 1, spawned := 1);
            && Enabled(s, Leave)
            && Apply(s, Leave) == Init<int>().(spawned := 1, emptied := true, closing := 1)
  {
    hide QueueStep, Received, SendToken, Woken;
  }

  lemma FirstChildCloses()
    ensures var s := Init<int>().(spawned := 1, emptied := true, closing := 1);
            Enabled(s, Close) && Apply(s, Close) == Emptied()
  {
    hide QueueStep, Received, SendToken, Woken;
    ShutStep(NO_COMPLETIONS, 0);
  }

  const ONE_CHILD: seq<Event<int>> := [Spawn, Succeed] + [Leave, Close]

  lemma OneChildRuns()
    ensures Legal(Init<int>(), ONE_CHILD) && Run(Init<int>(), ONE_CHILD) == Emptied()
  {
    hide Apply, Enabled, Legal, Run, Emptied;
    var s := Init<int>().(active := 1, leaving := 1, spawned := 1);
    FirstChildLeaves();
    FirstChildCounts();
    FirstChildCloses();
    TwoSteps(Init<int>(), Spawn, Succeed);
    TwoSteps(s, Leave, Close);
    RunConcat(Init<int>(), [Spawn, Succeed], [Leave, Close]);
  }

  lemma LateSpawn()
    ensures Enabled(Emptied(), Spawn)
    ensures var s := Apply(Emptied(), Spawn);
            s.join == Top && s.completions.closed && s.completions.line == [] && s.active == 1
  {
  }

  /** A first child that ends before the second is spawned closes the scope's channel; `join` then leaks the error. */
  lemma LeakExample()
    ensures var es := ONE_CHILD + ([Spawn] + JoinAlone(1));
            Legal(Init<int>(), es) && Run(Init<int>(), es).join == Done(LeakedClosed)
  {
    hide Apply, Enabled, Legal, Run, Emptied, JoinAlone;
    OneChildRuns();
    LateSpawn();
    LeakIff(Apply(Emptied(), Spawn));
    StepThen(Emptied(), Spawn, JoinAlone(1));
    RunConcat(Init<int>(), ONE_CHILD, [Spawn] + JoinAlone(1));
  }
}
