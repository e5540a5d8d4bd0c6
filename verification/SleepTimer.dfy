/** `sleep_for` on the loop thread: a start task, cancel tasks and the resumption share the runtime's FIFO queue, and
    race with the timer's callback. */
module SleepTimer {
  import opened Waiters
  import opened Counting

  datatype Task = Start | Cancel | Resume

  /** The timer handle: none yet, started, being closed, and freed by the close callback. */
  datatype Handle = NoHandle | Armed | Closing | Freed

  datatype How = Fired | Cancelled | Failed(code: int)

  /** What the sleeping coroutine sees when it goes on. */
  datatype Report = Slept | ReportCancelled | ReportError(code: int)

  // ---------------------------------------------------------------- one sleep, seen from outside

  datatype Sleep = Sleep(
    suspended: bool,               // `await_suspend` handed control back
    ended: Option<How>,
    handle: Handle,
    inits: nat,                   // handles successfully initialised
    closes: nat,                   // calls of uv_close
    resumptions: nat,
    queue: seq<Task>)

  const FRESH: Sleep := Sleep(false, None, NoHandle, 0, 0, 0, [])

  const STOPPED_EARLY: Sleep := FRESH.(ended := Some(Cancelled), resumptions := 1)

  function CloseHandle(s: Sleep): Sleep {
    if s.handle.Armed? then s.(handle := Closing, closes := s.closes + 1) else s
  }

  /** The sleep ends, closes its handle and posts its resumption; a sleep that has ended ignores it. */
  function End(s: Sleep, how: How): Sleep {
    if s.ended.Some? then s
    else CloseHandle(s).(ended := Some(how), queue := s.queue + [Resume])
  }

  /** `await_suspend`: a sleep whose stop token is already requested goes on at once, cancelled. */
  function Suspend(s: Sleep, stopped: bool, cancelFirst: bool): Sleep {
    if stopped then s.(ended := Some(Cancelled), resumptions := s.resumptions + 1)
    else s.(suspended := true, queue := s.queue + (if cancelFirst then [Cancel, Start] else [Start]))
  }

  /** `initRc`, `startRc`: what the two libuv calls answer; negative is an error. */
  function RunTask(s: Sleep, initRc: int, startRc: int): Sleep
    requires s.queue != []
  {
    var t := s.(queue := s.queue[1..]);
    match s.queue[0]
    case Cancel => End(t, Cancelled)
    case Resume => t.(resumptions := t.resumptions + 1)
    case Start =>
      if t.ended.Some? then t
      else if initRc < 0 then End(t, Failed(initRc))
      else
        var u := t.(handle := Armed, inits := t.inits + 1);
        if startRc < 0 then End(u, Failed(startRc)) else u
  }

  // ---------------------------------------------------------------- the implementation

  class TimerWait {
    var completed: bool
    var cancelled: bool
    var status: int
    var resumed: bool
    var ctx: Option<bool>          // the handle's context with its `closing` flag
    var queue: seq<Task>
    var inits: nat
    var closes: nat
    var resumptions: nat
    ghost var view: Sleep

    ghost predicate Valid()
      reads this
    {
      && queue == view.queue && inits == view.inits && closes == view.closes && resumptions == view.resumptions
      && completed == view.ended.Some? && resumed == (view.suspended && completed)
      && (completed ==> match view.ended.value
                        case Fired => !cancelled && status == 0
                        case Cancelled => cancelled
                        case Failed(rc) => !cancelled && status == rc && rc < 0)
      && (!completed ==> !cancelled && status == 0)
      && ctx == (match view.handle case Armed => Some(false) case Closing => Some(true) case _ => None)
    }

    constructor ()
      ensures Valid() && view == FRESH
    {
      completed, cancelled, status, resumed, ctx := false, false, 0, false, None;
      queue, inits, closes, resumptions := [], 0, 0, 0;
      view := FRESH;
    }

    /** `await_suspend`; `cancelFirst`: the stop callback runs before the start task is posted. */
    method AwaitSuspend(stopped: bool, cancelFirst: bool) returns (suspends: bool)
      requires Valid() && view == FRESH
      modifies this
      ensures Valid() && view == Suspend(old(view), stopped, cancelFirst) && suspends == !stopped
    {
      if stopped {
        cancelled, completed, resumptions := true, true, resumptions + 1;
        view := Suspend(view, stopped, cancelFirst);
        return false;
      }
      if cancelFirst {
        queue := queue + [Cancel];
      }
      queue := queue + [Start];
      view := Suspend(view, stopped, cancelFirst);
      assert queue == view.queue;
      return !resumed;
    }

    method ResumeOnRuntime()
      modifies `resumed, `queue
      ensures resumed && queue == if old(resumed) then old(queue) else old(queue) + [Resume]
    {
      if resumed {
        return;
      }
      resumed := true;
      queue := queue + [Resume];
    }

    method CloseTimer()
      modifies `ctx, `closes
      ensures ctx == if old(ctx) == Some(false) then Some(true) else old(ctx)
      ensures closes == if old(ctx) == Some(false) then old(closes) + 1 else old(closes)
    {
      if ctx == None || ctx.value {
        return;
      }
      ctx, closes := Some(true), closes + 1;
    }

    method Fire()
      requires Valid() && view.suspended
      modifies this
      ensures Valid() && view == End(old(view), Fired)
    {
      if completed {
        return;
      }
      completed, status := true, 0;
      CloseTimer();
      ResumeOnRuntime();
      view := End(view, Fired);
    }

    method CancelSleep()
      requires Valid() && view.suspended
      modifies this
      ensures Valid() && view == End(old(view), Cancelled)
    {
      if completed {
        return;
      }
      completed, cancelled := true, true;
      CloseTimer();
      ResumeOnRuntime();
      view := End(view, Cancelled);
    }

    method Fail(rc: int)
      requires Valid() && view.suspended && rc < 0
      modifies this
      ensures Valid() && view == End(old(view), Failed(rc))
    {
      if completed {
        return;
      }
      completed, status := true, rc;
      CloseTimer();
      ResumeOnRuntime();
      view := End(view, Failed(rc));
    }

    method StartTimer(initRc: int, startRc: int)
      requires Valid() && view.suspended
      modifies this
      ensures Valid()
      ensures view == RunTask(old(view).(queue := [Start] + old(view).queue), initRc, startRc)
    {
      assert ([Start] + queue)[1..] == queue;
      if completed {
        return;
      }
      if initRc < 0 {
        Fail(initRc);
        return;
      }
      ctx, inits := Some(false), inits + 1;
      view := view.(handle := Armed, inits := view.inits + 1);
      if startRc < 0 {
        FailStarted(startRc);
      }
    }

    /** The timer could not be started: closed first, then failed. */
    method FailStarted(rc: int)
      requires Valid() && view.suspended && rc < 0 && !completed
      modifies this
      ensures Valid() && view == End(old(view), Failed(rc))
    {
      ghost var armed := view;
      CloseTimer();
      view := CloseHandle(view);
      Fail(rc);
      assert view == End(armed, Failed(rc));
    }

    method RunNext(initRc: int, startRc: int)
      requires Valid() && view.suspended && queue != []
      modifies this
      ensures Valid() && view == RunTask(old(view), initRc, startRc)
    {
      var t := queue[0];
      queue := queue[1..];
      view := view.(queue := queue);
      assert old(queue) == [t] + queue;
      match t {
        case Start => StartTimer(initRc, startRc);
        case Cancel => CancelSleep();
        case Resume =>
          resumptions := resumptions + 1;
          view := view.(resumptions := resumptions);
      }
    }

    /** The close callback of libuv. */
    method OnClosed()
      requires Valid() && ctx == Some(true)
      modifies this
      ensures Valid() && view == old(view).(handle := Freed)
    {
      ctx := None;
      view := view.(handle := Freed);
    }

    /** `await_resume`; `stopped`: the stop token is requested by now. */
    method AwaitResume(stopped: bool) returns (r: Report)
      requires Valid() && completed
      ensures r == if stopped then ReportCancelled
                   else match view.ended.value
                        case Fired => Slept
                        case Cancelled => ReportCancelled
                        case Failed(rc) => ReportError(rc)
    {
      if cancelled || stopped {
        return ReportCancelled;
      }
      if status < 0 {
        return ReportError(status);
      }
      return Slept;
    }
  }

  // ---------------------------------------------------------------- every run

  datatype Event = Await(stopped: bool, cancelFirst: bool) | StopCallback | NextTask(initRc: int, startRc: int) | Tick | Closed

  predicate Enabled(s: Sleep, e: Event) {
    match e
    case Await(_, _) => s == FRESH
    case StopCallback => s.suspended
    case NextTask(_, _) => s.queue != []
    case Tick => s.handle == Armed
    case Closed => s.handle == Closing
  }

  function Apply(s: Sleep, e: Event): Sleep
    requires Enabled(s, e)
  {
    match e
    case Await(stopped, cancelFirst) => Suspend(s, stopped, cancelFirst)
    case StopCallback => s.(queue := s.queue + [Cancel])
    case NextTask(initRc, startRc) => RunTask(s, initRc, startRc)
    case Tick => End(s, Fired)
    case Closed => s.(handle := Freed)
  }

  ghost predicate Legal(s: Sleep, es: seq<Event>)
    decreases |es|
  {
    es != [] ==> Enabled(s, es[0]) && Legal(Apply(s, es[0]), es[1..])
  }

  ghost function Run(s: Sleep, es: seq<Event>): Sleep
    requires Legal(s, es)
    decreases |es|
  {
    if es == [] then s else Run(Apply(s, es[0]), es[1..])
  }

  function Occurrences(q: seq<Task>, t: Task): nat {
    multiset(q)[t]
  }

  /** The start task runs once and is the only one to open a handle; the end closes the handle and posts one
      resumption; a sleep that has not ended has its start still queued, or its timer running. */
  ghost predicate Inv(s: Sleep) {
    && (!s.suspended ==> s == FRESH || s == STOPPED_EARLY)
    && Occurrences(s.queue, Start) + s.inits <= 1
    && Occurrences(s.queue, Resume) + s.resumptions == One(s.ended.Some?)
    && (s.inits == 0 <==> s.handle == NoHandle) && s.closes == One(s.handle.Closing? || s.handle.Freed?)
    && (s.ended.Some? ==> s.handle != Armed)
    && (s.ended.None? ==> s.handle.NoHandle? || s.handle.Armed?)
    && (s.suspended && s.ended.None? ==> Occurrences(s.queue, Start) == 1 || s.handle == Armed)
  }

  lemma Popped(q: seq<Task>, t: Task)
    requires q != []
    ensures Occurrences(q, t) == One(q[0] == t) + Occurrences(q[1..], t)
  {
    assert q == [q[0]] + q[1..];
  }

  lemma Pushed(q: seq<Task>, x: Task, t: Task)
    ensures Occurrences(q + [x], t) == Occurrences(q, t) + One(x == t)
  {
  }

  lemma EndKeeps(s: Sleep, how: How)
    requires Inv(s) && s.suspended
    ensures Inv(End(s, how))
  {
    hide Occurrences;
    Pushed(s.queue, Resume, Start);
    Pushed(s.queue, Resume, Resume);
  }

  lemma AwaitKeeps(stopped: bool, cancelFirst: bool)
    ensures Inv(Suspend(FRESH, stopped, cancelFirst))
  {
    hide Occurrences;
    var q := if cancelFirst then [Cancel] else [];
    Pushed(q, Start, Start);
    Pushed(q, Start, Resume);
    Pushed([], Cancel, Start);
    Pushed([], Cancel, Resume);
    assert [] + [Cancel] == [Cancel] && Suspend(FRESH, false, cancelFirst).queue == q + [Start];
    NoneIn(Start);
    NoneIn(Resume);
  }

  lemma NoneIn(t: Task)
    ensures Occurrences([], t) == 0
  {
  }

  lemma StartKeeps(s: Sleep, initRc: int, startRc: int)
    requires Inv(s) && s.queue != [] && s.queue[0] == Start && s.suspended
    ensures Inv(RunTask(s, initRc, startRc))
  {
    hide Occurrences;
    Popped(s.queue, Start);
    Popped(s.queue, Resume);
    Pushed(s.queue[1..], Resume, Start);
    Pushed(s.queue[1..], Resume, Resume);
  }

  lemma OtherTaskKeeps(s: Sleep, initRc: int, startRc: int)
    requires Inv(s) && s.queue != [] && s.queue[0] != Start && s.suspended
    ensures Inv(RunTask(s, initRc, startRc))
  {
    hide Occurrences;
    Popped(s.queue, Start);
    Popped(s.queue, Resume);
    Pushed(s.queue[1..], Resume, Start);
    Pushed(s.queue[1..], Resume, Resume);
  }

  lemma ApplyKeeps(s: Sleep, e: Event)
    requires Inv(s) && Enabled(s, e)
    ensures Inv(Apply(s, e))
  {
    hide Occurrences, RunTask, Suspend, End;
    match e {
      case Await(stopped, cancelFirst) => AwaitKeeps(stopped, cancelFirst);
      case StopCallback =>
        Pushed(s.queue, Cancel, Start);
        Pushed(s.queue, Cancel, Resume);
      case NextTask(initRc, startRc) =>
        if s.queue[0] == Start {
          StartKeeps(s, initRc, startRc);
        } else {
          OtherTaskKeeps(s, initRc, startRc);
        }
      case Tick => EndKeeps(s, Fired);
      case Closed =>
    }
  }

  /** A sleep ends in one way, for good. */
  lemma ApplyFinal(s: Sleep, e: Event)
    requires Inv(s) && Enabled(s, e) && s.ended.Some?
    ensures Apply(s, e).ended == s.ended && Apply(s, e).inits == s.inits
  {
  }

  lemma {:induction false} RunsKeepInv(s: Sleep, es: seq<Event>)
    requires Inv(s) && Legal(s, es)
    ensures Inv(Run(s, es))
    ensures s.ended.Some? ==> Run(s, es).ended == s.ended && Run(s, es).inits == s.inits
    decreases |es|
  {
    hide Inv, Apply, Enabled;
    if es == [] {
    } else {
      ApplyKeeps(s, es[0]);
      if s.ended.Some? {
        ApplyFinal(s, es[0]);
      }
      RunsKeepInv(Apply(s, es[0]), es[1..]);
    }
  }

  // How a sleep ends, in terms of what happens to it.

  /** The end that `e` brings to a sleep that has not ended: the timer fires, a cancel task runs, or the start task finds
      that libuv refuses. */
  function EndsWith(s: Sleep, e: Event): Option<How> {
    match e
    case Await(stopped, _) => if stopped then Some(Cancelled) else None
    case StopCallback => None
    case NextTask(initRc, startRc) =>
      if s.queue == [] then None
      else if s.queue[0] == Cancel then Some(Cancelled)
      else if s.queue[0] == Start && initRc < 0 then Some(Failed(initRc))
      else if s.queue[0] == Start && startRc < 0 then Some(Failed(startRc))
      else None
    case Tick => Some(Fired)
    case Closed => None
  }

  ghost function FirstEnd(s: Sleep, es: seq<Event>): Option<How>
    requires Legal(s, es)
    decreases |es|
  {
    if es == [] then None
    else if EndsWith(s, es[0]).Some? then EndsWith(s, es[0])
    else FirstEnd(Apply(s, es[0]), es[1..])
  }

  lemma StepEnds(s: Sleep, e: Event)
    requires Enabled(s, e)
    ensures Apply(s, e).ended == if s.ended.Some? then s.ended else EndsWith(s, e)
  {
  }

  lemma {:induction false} RunEnds(s: Sleep, es: seq<Event>)
    requires Legal(s, es)
    ensures Run(s, es).ended == if s.ended.Some? then s.ended else FirstEnd(s, es)
    decreases |es|
  {
    hide Apply, Enabled, EndsWith;
    if es == [] {
    } else {
      StepEnds(s, es[0]);
      RunEnds(Apply(s, es[0]), es[1..]);
    }
  }

  /** Over every run a sleep ends with the first end that comes to it: fired if its timer fires before a cancel task runs,
      failed with the code of libuv if the start task is refused before that, and cancelled otherwise. */
  lemma SleepEndsFirst(es: seq<Event>)
    requires Legal(FRESH, es)
    ensures Run(FRESH, es).ended == FirstEnd(FRESH, es)
  {
    RunEnds(FRESH, es);
  }

  /** A stop that was requested is on its way, or the sleep has ended. */
  predicate Stopping(s: Sleep) {
    Cancel in s.queue || s.ended.Some?
  }

  lemma StepStops(s: Sleep, e: Event)
    requires Enabled(s, e)
    ensures Stopping(s) || e == StopCallback || (e.Await? && (e.stopped || e.cancelFirst)) ==> Stopping(Apply(s, e))
  {
    if e.NextTask? {
      assert s.queue == [s.queue[0]] + s.queue[1..];
    }
  }

  lemma {:induction false} RunStops(s: Sleep, es: seq<Event>)
    requires Legal(s, es) && (Stopping(s) || StopCallback in es)
    ensures Stopping(Run(s, es))
    decreases |es|
  {
    hide Apply, Enabled, Stopping;
    if es == [] {
    } else {
      assert es == [es[0]] + es[1..];
      StepStops(s, es[0]);
      RunStops(Apply(s, es[0]), es[1..]);
    }
  }

  /** A stop requested during a sleep takes effect: with the queue drained the sleep has ended, cancelled unless some
      other end came first, and the sleeper was resumed. */
  lemma StopIsHeard(es: seq<Event>)
    requires Legal(FRESH, es) && StopCallback in es && Run(FRESH, es).queue == []
    ensures var t := Run(FRESH, es); t.ended.Some? && t.ended == FirstEnd(FRESH, es) && t.resumptions == 1
  {
    hide Apply, Enabled, Inv, Stopping, FirstEnd, Run, Legal;
    FreshInv();
    RunStops(FRESH, es);
    RunEnds(FRESH, es);
    RunsKeepInv(FRESH, es);
    EndedAndDrained(Run(FRESH, es));
  }

  lemma EndedAndDrained(s: Sleep)
    requires Inv(s) && Stopping(s) && s.queue == []
    ensures s.ended.Some? && s.resumptions == 1
  {
  }

  /** The cancel stands in front of everything else until it has run. */
  predicate NeverStarts(s: Sleep) {
    && s.inits == 0 && s.handle == NoHandle
    && (s.ended.None? ==> s.queue != [] && s.queue[0] == Cancel)
    && (s.ended.Some? ==> s.ended == Some(Cancelled))
  }

  lemma {:induction false} RunNeverStarts(s: Sleep, es: seq<Event>)
    requires Legal(s, es) && NeverStarts(s)
    ensures NeverStarts(Run(s, es))
    decreases |es|
  {
    if es == [] {
    } else {
      StepNeverStarts(s, es[0]);
      RunNeverStarts(Apply(s, es[0]), es[1..]);
    }
  }

  lemma StepNeverStarts(s: Sleep, e: Event)
    requires Enabled(s, e) && NeverStarts(s)
    ensures NeverStarts(Apply(s, e))
  {
  }

  /** A sleep that is cancelled before its start task is posted never creates a timer and can only end cancelled. */
  lemma CancelFirstNeverStarts(es: seq<Event>)
    requires Legal(Apply(FRESH, Await(false, true)), es)
    ensures var t := Run(Apply(FRESH, Await(false, true)), es);
            t.inits == 0 && t.handle == NoHandle && (t.ended.Some? ==> t.ended == Some(Cancelled))
  {
    RunNeverStarts(Apply(FRESH, Await(false, true)), es);
  }

  /** A sleep that nobody disturbs fires. */
  lemma UndisturbedExample()
    ensures var es := [Await(false, false), NextTask(0, 0), Tick, NextTask(0, 0), Closed];
            Legal(FRESH, es) && Run(FRESH, es) == Sleep(true, Some(Fired), Freed, 1, 1, 1, [])
  {
    var s1 := Sleep(true, None, NoHandle, 0, 0, 0, [Start]);
    var s2 := Sleep(true, None, Armed, 1, 0, 0, []);
    var s3 := Sleep(true, Some(Fired), Closing, 1, 1, 0, [Resume]);
    var s4 := Sleep(true, Some(Fired), Closing, 1, 1, 1, []);
    assert Apply(FRESH, Await(false, false)) == s1 && Apply(s1, NextTask(0, 0)) == s2;
    assert Apply(s2, Tick) == s3 && Apply(s3, NextTask(0, 0)) == s4;
    hide Apply;
    RunStep(s4, Closed, []);
    RunStep(s3, NextTask(0, 0), [Closed]);
    RunStep(s2, Tick, [NextTask(0, 0), Closed]);
    RunStep(s1, NextTask(0, 0), [Tick, NextTask(0, 0), Closed]);
    RunStep(FRESH, Await(false, false), [NextTask(0, 0), Tick, NextTask(0, 0), Closed]);
    ClosedFrees(s4);
    NoSteps(s4.(handle := Freed));
    assert [Closed] + [] == [Closed] && [NextTask(0, 0)] + [Closed] == [NextTask(0, 0), Closed];
    assert [Tick] + [NextTask(0, 0), Closed] == [Tick, NextTask(0, 0), Closed];
    assert [NextTask(0, 0)] + [Tick, NextTask(0, 0), Closed] == [NextTask(0, 0), Tick, NextTask(0, 0), Closed];
    assert [Await(false, false)] + [NextTask(0, 0), Tick, NextTask(0, 0), Closed]
        == [Await(false, false), NextTask(0, 0), Tick, NextTask(0, 0), Closed];
  }

  lemma ClosedFrees(s: Sleep)
    requires s.handle == Closing
    ensures Enabled(s, Closed) && Apply(s, Closed) == s.(handle := Freed)
  {
  }

  lemma NoSteps(s: Sleep)
    ensures Legal(s, []) && Run(s, []) == s
  {
  }

  lemma RunStep(s: Sleep, e: Event, es: seq<Event>)
    requires Enabled(s, e)
    ensures Legal(Apply(s, e), es) ==> Legal(s, [e] + es) && Run(s, [e] + es) == Run(Apply(s, e), es)
  {
    assert ([e] + es)[1..] == es;
  }

  /** At most one handle, closed at most once and never before the end; at most one resumption, never before it. */
  lemma SleepIsOneShot(es: seq<Event>)
    requires Legal(FRESH, es)
    ensures var s := Run(FRESH, es);
            && s.closes <= s.inits <= 1 && s.resumptions <= 1
            && (s.ended.None? ==> s.closes == 0 && s.resumptions == 0)
            && (s.ended.Some? ==> s.closes == s.inits)
  {
    hide Apply, Enabled, Inv;
    FreshInv();
    RunsKeepInv(FRESH, es);
    OneShot(Run(FRESH, es));
  }

  lemma FreshInv()
    ensures Inv(FRESH)
  {
  }

  lemma OneShot(s: Sleep)
    requires Inv(s)
    ensures s.closes <= s.inits <= 1 && s.resumptions <= 1
    ensures s.ended.None? ==> s.closes == 0 && s.resumptions == 0
    ensures s.ended.Some? ==> s.closes == s.inits
  {
    hide Occurrences;
    if s.handle.NoHandle? {
    } else if s.handle.Armed? {
    }
  }

  /** Once the queue is drained and no timer runs, the sleep has ended and was resumed exactly once. */
  lemma NothingLeftHanging(s: Sleep)
    requires Inv(s) && s.suspended && s.queue == [] && s.handle != Armed
    ensures s.ended.Some? && s.resumptions == 1 && s.closes == s.inits
  {
  }

  /** A cancel that runs while the start is still queued: no timer is ever created. */
  lemma CancelBeforeStart(s: Sleep, initRc: int, startRc: int, es: seq<Event>)
    requires Inv(s) && s.queue != [] && s.queue[0] == Cancel && s.ended.None? && Start in s.queue
    requires Legal(RunTask(s, initRc, startRc), es)
    ensures var t := Run(RunTask(s, initRc, startRc), es);
            t.inits == 0 && t.handle == NoHandle && t.ended == Some(Cancelled)
  {
    CancelTask(s, initRc, startRc);
    hide Apply, Enabled, Occurrences, RunTask;
    ApplyTask(s, initRc, startRc);
    RunsKeepInv(RunTask(s, initRc, startRc), es);
  }

  lemma CancelTask(s: Sleep, initRc: int, startRc: int)
    requires Inv(s) && s.queue != [] && s.queue[0] == Cancel && s.ended.None? && Start in s.queue
    ensures var t := RunTask(s, initRc, startRc); t.inits == 0 && t.ended == Some(Cancelled)
  {
  }

  lemma ApplyTask(s: Sleep, initRc: int, startRc: int)
    requires Inv(s) && s.queue != []
    ensures Inv(RunTask(s, initRc, startRc))
  {
    ApplyKeeps(s, NextTask(initRc, startRc));
  }
}
