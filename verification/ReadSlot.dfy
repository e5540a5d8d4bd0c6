/** `stream_read_some_into`: any number of reads on one stream share the slot `stream->data`.  Start and cancel tasks
    come off the runtime's queue in order; data callbacks come at any time. */
module ReadSlot {
  import opened Waiters

  datatype Status = Success | Eof | Canceled | Busy | Failed(code: int)

  /** The shared state of one read. */
  datatype Read = Read(completed: bool, status: Status, nread: nat, cancelRequested: bool, resumed: nat)

  /** What libuv reports to the read callback. */
  datatype Chunk = Nothing | Bytes(n: nat) | EndOfStream | Error(status: Status)

  datatype Task = Start(id: Id) | Cancel(id: Id)

  /** How a read ends for its caller. */
  datatype Outcome = Returned(n: nat) | Cancelled | Threw(status: Status)

  /** `await_resume`. */
  function OutcomeOf(r: Read): Outcome {
    if r.status.Canceled? || (r.cancelRequested && r.status.Success?) then Cancelled
    else if !r.status.Success? && !r.status.Eof? then Threw(r.status)
    else Returned(r.nread)
  }

  // ---------------------------------------------------------------- the slot as an owner and a set of results

  datatype Slots = Slots(
    owner: Option<Id>,             // the read whose callback is installed
    pending: set<Id>,              // reads that have not ended
    results: map<Id, Outcome>,     // reads that have
    queue: seq<Task>)

  function Init(): Slots {
    Slots(None, {}, map[], [])
  }

  function End(s: Slots, id: Id, o: Outcome): Slots {
    s.(owner := if s.owner == Some(id) then None else s.owner,
       pending := s.pending - {id}, results := s.results[id := o])
  }

  /** A read begins; the stop callback may run, and post its task, even before the start task is posted. */
  function Begin(s: Slots, id: Id, stopped: bool, cancelFirst: bool): Slots {
    if stopped then s.(results := s.results[id := Cancelled])
    else s.(pending := s.pending + {id},
            queue := s.queue + (if cancelFirst then [Cancel(id), Start(id)] else [Start(id)]))
  }

  function Post(s: Slots, t: Task): Slots {
    s.(queue := s.queue + [t])
  }

  /** `rc`: what `uv_read_start` answers. */
  function RunTask(s: Slots, rc: Status): Slots
    requires s.queue != []
  {
    var t := s.(queue := s.queue[1..]);
    var id := s.queue[0].id;
    if id !in s.pending then t
    else if s.queue[0].Cancel? then End(t, id, Cancelled)
    else StartRead(t, id, rc)
  }

  function StartRead(s: Slots, id: Id, rc: Status): Slots {
    if s.owner.None? && rc.Success? then s.(owner := Some(id))
    else s.(pending := s.pending - {id},
            results := s.results[id := if s.owner.Some? then Threw(Busy) else OutcomeOf(Read(true, rc, 0, false, 0))])
  }

  function OutcomeOfChunk(c: Chunk): Outcome {
    if c.Bytes? then Returned(c.n)
    else if c.Error? then OutcomeOf(Read(true, c.status, 0, false, 0))
    else Returned(0)
  }

  function Deliver(s: Slots, c: Chunk): Slots {
    if c.Nothing? || s.owner.None? then s else End(s, s.owner.value, OutcomeOfChunk(c))
  }

  /** Each read posts its start task once, and before it can own the slot. */
  predicate StartedOnce(owner: Option<Id>, queue: seq<Task>) {
    && (owner.Some? ==> Task.Start(owner.value) !in queue)
    && (forall i, j :: 0 <= i < j < |queue| && queue[i].Start? ==> queue[i] != queue[j])
  }

  /** A task taken off the queue is the only start task of its read. */
  lemma PopKeepsStarts(owner: Option<Id>, queue: seq<Task>)
    requires StartedOnce(owner, queue) && queue != []
    ensures StartedOnce(owner, queue[1..])
    ensures queue[0].Start? ==> owner != Some(queue[0].id) && queue[0] !in queue[1..]
  {
    assert queue == [queue[0]] + queue[1..];
  }

  // ---------------------------------------------------------------- the implementation

  class StreamReads {
    var table: map<Id, Read>
    var slot: Option<Id>           // stream->data
    var queue: seq<Task>
    ghost var view: Slots

    ghost predicate Valid()
      reads this
    {
      && queue == view.queue && slot == view.owner
      && table.Keys == view.pending + view.results.Keys
      && (slot.Some? ==> slot.value in view.pending) && StartedOnce(slot, queue)
      && (forall id :: id in view.pending ==> id !in view.results && table[id] == Read(false, Success, 0, false, 0))
      && (forall id :: id in view.results ==> OutcomeOf(table[id]) == view.results[id] && table[id].resumed == 1)
      && (forall t :: t in queue ==> t.id in table && (t.id in view.results ==> table[t.id].completed))
    }

    constructor ()
      ensures Valid() && view == Init()
    {
      table, slot, queue := map[], None, [];
      view := Init();
    }

    /** `await_suspend`. */
    method AwaitSuspend(id: Id, stopped: bool, cancelFirst: bool) returns (suspends: bool)
      requires Valid() && id !in table
      modifies this
      ensures Valid() && view == Begin(old(view), id, stopped, cancelFirst) && suspends == !stopped
    {
      if stopped {
        table := table[id := Read(false, Canceled, 0, true, 1)];
        view := Begin(view, id, stopped, cancelFirst);
        return false;
      }
      table := table[id := Read(false, Success, 0, false, 0)];
      if cancelFirst {
        queue := queue + [Cancel(id)];
      }
      queue := queue + [Start(id)];
      view := Begin(view, id, stopped, cancelFirst);
      assert view.queue == queue;
      return true;
    }

    /** The stop callback of a suspended read posts a task, whether or not the read has ended meanwhile. */
    method StopCallback(id: Id)
      requires Valid() && id in table && (id in view.pending || table[id].completed)
      modifies this
      ensures Valid() && view == Post(old(view), Cancel(id))
    {
      queue := queue + [Cancel(id)];
      view := Post(view, Cancel(id));
    }

    /** `complete`: only the first call has an effect, and it resumes the coroutine. */
    method Complete(id: Id)
      requires id in table
      modifies `table
      ensures table == old(table)[id := if old(table[id]).completed then old(table[id])
                                        else old(table[id]).(completed := true, resumed := old(table[id]).resumed + 1)]
    {
      var r := table[id];
      if r.completed {
        return;
      }
      table := table[id := r.(completed := true, resumed := r.resumed + 1)];
    }

    /** The next queued task; one for a read that has ended has no effect. */
    method RunNext(rc: Status)
      requires Valid() && queue != []
      modifies this
      ensures Valid() && view == RunTask(old(view), rc)
    {
      hide StartedOnce;
      PopKeepsStarts(slot, queue);
      var t := queue[0];
      assert t in queue;
      queue := queue[1..];
      view := view.(queue := queue);
      if table[t.id].completed {
        return;
      }
      match t {
        case Cancel(id) => CancelTask(id);
        case Start(id) => StartTask(id, rc);
      }
    }

    method CancelTask(id: Id)
      requires Valid() && id in view.pending
      modifies `table, `slot, `view
      ensures Valid() && view == End(old(view), id, Cancelled)
    {
      table := table[id := table[id].(cancelRequested := true)];
      if slot == Some(id) {
        slot := None;
      }
      table := table[id := table[id].(status := Canceled)];
      Complete(id);
      view := End(view, id, Cancelled);
    }

    method StartTask(id: Id, rc: Status)
      requires Valid() && id in view.pending && slot != Some(id) && Task.Start(id) !in queue
      modifies `table, `slot, `view
      ensures Valid() && view == StartRead(old(view), id, rc)
    {
      view := StartRead(view, id, rc);
      if slot != None {
        table := table[id := table[id].(status := Busy)];
        Complete(id);
        return;
      }
      slot := Some(id);
      if !rc.Success? {
        slot := None;
        table := table[id := table[id].(status := rc)];
        Complete(id);
      }
    }

    /** The read callback. */
    method OnData(c: Chunk)
      requires Valid() && (c.Error? ==> !c.status.Success? && !c.status.Eof?)
      modifies this
      ensures Valid() && view == Deliver(old(view), c)
    {
      if c.Nothing? || slot == None {
        return;
      }
      var id := slot.value;
      view := Deliver(view, c);
      match c {
        case Bytes(n) => table := table[id := table[id].(status := Success, nread := n)];
        case EndOfStream => table := table[id := table[id].(status := Eof, nread := 0)];
        case Error(st) => table := table[id := table[id].(status := st, nread := 0)];
      }
      slot := None;
      Complete(id);
    }
  }

  // ---------------------------------------------------------------- every run

  datatype Event =
    | BeginRead(id: Id, stopped: bool, cancelFirst: bool)
    | StopCallback(id: Id)
    | NextTask(rc: Status)
    | Callback(chunk: Chunk)

  ghost predicate Enabled(s: Slots, e: Event) {
    match e
    case BeginRead(id, _, _) => id !in s.pending && id !in s.results && (forall t :: t in s.queue ==> t.id != id)
    case StopCallback(id) => id in s.pending || id in s.results
    case NextTask(_) => s.queue != []
    case Callback(c) => c.Error? ==> !c.status.Success? && !c.status.Eof?   // a negative code other than UV_EOF
  }

  function Apply(s: Slots, e: Event): Slots {
    match e
    case BeginRead(id, stopped, cancelFirst) => Begin(s, id, stopped, cancelFirst)
    case StopCallback(id) => Post(s, Cancel(id))
    case NextTask(rc) => if s.queue != [] then RunTask(s, rc) else s
    case Callback(c) => Deliver(s, c)
  }

  ghost predicate Legal(s: Slots, es: seq<Event>)
    decreases |es|
  {
    es != [] ==> Enabled(s, es[0]) && Legal(Apply(s, es[0]), es[1..])
  }

  function Run(s: Slots, es: seq<Event>): Slots
    decreases |es|
  {
    if es == [] then s else Run(Apply(s, es[0]), es[1..])
  }

  /** The slot names a read that has not ended; every other unfinished read still has its start task queued. */
  ghost predicate Inv(s: Slots) {
    && s.pending !! s.results.Keys
    && (s.owner.Some? ==> s.owner.value in s.pending)
    && StartedOnce(s.owner, s.queue)
    && (forall id :: id in s.pending ==> s.owner == Some(id) || Task.Start(id) in s.queue)
    && (forall t :: t in s.queue ==> t.id in s.pending || t.id in s.results)
  }

  lemma QueueTail(queue: seq<Task>)
    requires StartedOnce(None, queue) && queue != []
    ensures StartedOnce(None, queue[1..]) && (queue[0].Start? ==> queue[0] !in queue[1..])
    ensures forall t :: t in queue <==> t == queue[0] || t in queue[1..]
  {
    assert queue == [queue[0]] + queue[1..];
  }

  lemma QueuePush(queue: seq<Task>, t: Task)
    requires StartedOnce(None, queue) && (t.Start? ==> t !in queue)
    ensures StartedOnce(None, queue + [t])
    ensures forall x :: x in queue + [t] <==> x == t || x in queue
  {
  }

  lemma BeginKeeps(s: Slots, id: Id, stopped: bool, cancelFirst: bool)
    requires Inv(s) && Enabled(s, BeginRead(id, stopped, cancelFirst))
    ensures Inv(Begin(s, id, stopped, cancelFirst))
  {
    if !stopped {
      QueuePush(s.queue, Cancel(id));
      QueuePush(s.queue + [Cancel(id)], Start(id));
      QueuePush(s.queue, Start(id));
      assert s.queue + [Cancel(id), Start(id)] == s.queue + [Cancel(id)] + [Start(id)];
    }
  }

  lemma TaskKeeps(s: Slots, rc: Status)
    requires Inv(s) && s.queue != []
    ensures Inv(RunTask(s, rc))
  {
    hide OutcomeOf;
    QueueTail(s.queue);
  }

  lemma ApplyKeeps(s: Slots, e: Event)
    requires Inv(s) && Enabled(s, e)
    ensures Inv(Apply(s, e))
  {
    hide OutcomeOf, RunTask, Begin;
    match e {
      case BeginRead(id, stopped, cancelFirst) => BeginKeeps(s, id, stopped, cancelFirst);
      case StopCallback(id) => QueuePush(s.queue, Task.Cancel(id));
      case NextTask(rc) => TaskKeeps(s, rc);
      case Callback(_) =>
    }
  }

  lemma {:induction false} RunsKeepInv(s: Slots, es: seq<Event>)
    requires Inv(s) && Legal(s, es)
    ensures Inv(Run(s, es))
    decreases |es|
  {
    if es == [] {
    } else {
      ApplyKeeps(s, es[0]);
      RunsKeepInv(Apply(s, es[0]), es[1..]);
    }
  }

  /** Over every run of a new stream: a read has one result or none, the slot names a read without one, and every other
      such read has exactly its start task to wait for. */
  lemma SlotOverRuns(es: seq<Event>, id: Id)
    requires Legal(Init(), es)
    ensures var s := Run(Init(), es);
            && !(id in s.pending && id in s.results)
            && (s.owner == Some(id) ==> id in s.pending && Task.Start(id) !in s.queue)
            && (id in s.pending && s.owner != Some(id) ==> multiset(s.queue)[Task.Start(id)] == 1)
  {
    RunsKeepInv(Init(), es);
    StartsOnce(Run(Init(), es).queue, Task.Start(id));
  }

  lemma {:induction false} StartsOnce(queue: seq<Task>, t: Task)
    requires StartedOnce(None, queue) && t.Start?
    ensures multiset(queue)[t] == if t in queue then 1 else 0
  {
    if queue == [] {
    } else {
      assert queue == [queue[0]] + queue[1..];
      QueueTail(queue);
      StartsOnce(queue[1..], t);
    }
  }

  // How a read ends, in terms of what happens to it.

  /** The end that `e` brings to read `id`, if any. */
  function EndsWith(s: Slots, e: Event, id: Id): Option<Outcome> {
    match e
    case BeginRead(i, stopped, _) => if i == id && stopped then Some(Cancelled) else None
    case StopCallback(_) => None
    case NextTask(rc) =>
      if s.queue == [] || s.queue[0].id != id || id !in s.pending then None
      else if s.queue[0].Cancel? then Some(Cancelled)
      else if s.owner.Some? then Some(Threw(Busy))
      else (match rc
            case Success => None
            case Eof => Some(Returned(0))
            case Canceled => Some(Cancelled)
            case _ => Some(Threw(rc)))
    case Callback(c) =>
      if s.owner != Some(id) then None
      else (match c
            case Nothing => None
            case Bytes(n) => Some(Returned(n))
            case EndOfStream => Some(Returned(0))
            case Error(Canceled) => Some(Cancelled)
            case Error(st) => Some(Threw(st)))
  }

  /** The first end that comes to `id` in a run. */
  function FirstEnd(s: Slots, es: seq<Event>, id: Id): Option<Outcome>
    decreases |es|
  {
    if es == [] then None
    else if EndsWith(s, es[0], id).Some? then EndsWith(s, es[0], id)
    else FirstEnd(Apply(s, es[0]), es[1..], id)
  }

  function ResultOf(s: Slots, id: Id): Option<Outcome> {
    if id in s.results then Some(s.results[id]) else None
  }

  lemma StepEnds(s: Slots, e: Event, id: Id)
    requires Inv(s) && Enabled(s, e)
    ensures ResultOf(Apply(s, e), id) == if id in s.results then Some(s.results[id]) else EndsWith(s, e, id)
  {
    match e {
      case NextTask(rc) => assert s.queue[0] in s.queue;
      case _ =>
    }
  }

  lemma {:induction false} RunEnds(s: Slots, es: seq<Event>, id: Id)
    requires Inv(s) && Legal(s, es)
    ensures ResultOf(Run(s, es), id) == if id in s.results then Some(s.results[id]) else FirstEnd(s, es, id)
    decreases |es|
  {
    hide Inv, Enabled, Apply, EndsWith;
    if es == [] {
    } else {
      StepEnds(s, es[0], id);
      ApplyKeeps(s, es[0]);
      RunEnds(Apply(s, es[0]), es[1..], id);
    }
  }

  /** Over every run of a new stream a read ends with the first end that comes to it, and has no result before. */
  lemma ReadEndsFirst(es: seq<Event>, id: Id)
    requires Legal(Init(), es)
    ensures ResultOf(Run(Init(), es), id) == FirstEnd(Init(), es, id)
  {
    RunEnds(Init(), es, id);
  }

  /** A cancel that runs while its read is pending ends the read, and frees the slot exactly if the read owned it. */
  lemma CancelEnds(s: Slots, rc: Status)
    requires Inv(s) && s.queue != [] && s.queue[0].Cancel? && s.queue[0].id in s.pending
    ensures var t, id := RunTask(s, rc), s.queue[0].id;
            && id in t.results && t.results[id] == Cancelled && id !in t.pending
            && (t.owner.None? <==> s.owner.None? || s.owner == Some(id)) && (t.owner.Some? ==> t.owner == s.owner)
  {
  }

  /** A stop requested for a read is on its way, or the read has a result. */
  ghost predicate Stopping(s: Slots, id: Id) {
    Task.Cancel(id) in s.queue || id in s.results
  }

  lemma StepStops(s: Slots, e: Event, id: Id)
    requires Inv(s) && Enabled(s, e)
    ensures Stopping(s, id) || e == StopCallback(id) ==> Stopping(Apply(s, e), id)
  {
    match e {
      case NextTask(rc) =>
        assert s.queue == [s.queue[0]] + s.queue[1..] && s.queue[0] in s.queue;
      case BeginRead(i, stopped, cancelFirst) =>
      case _ =>
    }
  }

  lemma {:induction false} RunStops(s: Slots, es: seq<Event>, id: Id)
    requires Inv(s) && Legal(s, es) && (Stopping(s, id) || StopCallback(id) in es)
    ensures Stopping(Run(s, es), id)
    decreases |es|
  {
    hide Inv, Enabled, Apply, Stopping;
    if es == [] {
    } else {
      assert es == [es[0]] + es[1..];
      StepStops(s, es[0], id);
      ApplyKeeps(s, es[0]);
      RunStops(Apply(s, es[0]), es[1..], id);
    }
  }

  /** A stop requested for a read takes effect: with the queue drained the read has a result, and it is `Cancelled` unless
      some other end came first. */
  lemma StopIsHeard(es: seq<Event>, id: Id)
    requires Legal(Init(), es) && StopCallback(id) in es && Run(Init(), es).queue == []
    ensures var t := Run(Init(), es);
            && id in t.results && id !in t.pending && Some(t.results[id]) == FirstEnd(Init(), es, id)
  {
    RunStops(Init(), es, id);
    RunsKeepInv(Init(), es);
    RunEnds(Init(), es, id);
  }

  /** A read whose cancel was posted before its start never owns the slot, and can only end cancelled. */
  ghost predicate NeverStarts(s: Slots, id: Id) {
    && s.owner != Some(id)
    && (id in s.results ==> s.results[id] == Cancelled)
    && (id in s.pending ==> exists i :: 0 <= i < |s.queue| && s.queue[i] == Task.Cancel(id) && Task.Start(id) !in s.queue[..i])
    && (id in s.pending || id in s.results)
  }

  lemma StepNeverStarts(s: Slots, e: Event, id: Id)
    requires Inv(s) && Enabled(s, e) && NeverStarts(s, id)
    ensures NeverStarts(Apply(s, e), id)
  {
    var t := Apply(s, e);
    if id in s.pending {
      var i :| 0 <= i < |s.queue| && s.queue[i] == Task.Cancel(id) && Task.Start(id) !in s.queue[..i];
      if e.NextTask? && i > 0 {
        assert s.queue[0] in s.queue[..i] && s.queue[1..][i - 1] == Task.Cancel(id);
        assert s.queue[1..][..i - 1] == s.queue[1..i];
        assert Task.Start(id) !in s.queue[1..][..i - 1] by {
          assert forall x :: x in s.queue[1..i] ==> x in s.queue[..i];
        }
      } else if !e.NextTask? {
        assert t.queue[..i] == s.queue[..i] && t.queue[i] == s.queue[i];
      }
    }
  }

  lemma {:induction false} RunNeverStarts(s: Slots, es: seq<Event>, id: Id)
    requires Inv(s) && Legal(s, es) && NeverStarts(s, id)
    ensures NeverStarts(Run(s, es), id)
    decreases |es|
  {
    hide Inv, Enabled, Apply, NeverStarts;
    if es == [] {
    } else {
      StepNeverStarts(s, es[0], id);
      ApplyKeeps(s, es[0]);
      RunNeverStarts(Apply(s, es[0]), es[1..], id);
    }
  }

  /** A read that is cancelled before its start task is posted ends cancelled, whatever happens on the stream. */
  lemma CancelFirstNeverReads(s: Slots, id: Id, es: seq<Event>)
    requires Inv(s) && Enabled(s, BeginRead(id, false, true))
    requires Legal(Apply(s, BeginRead(id, false, true)), es)
    ensures var t := Run(Apply(s, BeginRead(id, false, true)), es);
            && t.owner != Some(id) && (id in t.results ==> t.results[id] == Cancelled)
            && (t.queue == [] ==> id in t.results)
  {
    var t := Apply(s, BeginRead(id, false, true));
    ApplyKeeps(s, BeginRead(id, false, true));
    assert t.queue[|s.queue|] == Task.Cancel(id) && t.queue[..|s.queue|] == s.queue;
    RunNeverStarts(t, es, id);
  }

  /** A read that is stopped while it owns the slot is cancelled. */
  lemma StopExample()
    ensures var es := [BeginRead(0, false, false), NextTask(Success), StopCallback(0), NextTask(Success)];
            Legal(Init(), es) && Run(Init(), es) == Slots(None, {}, map[0 := Cancelled], [])
  {
    var s1 := Slots(None, {0}, map[], [Task.Start(0)]);
    var s2 := Slots(Some(0), {0}, map[], []);
    var s3 := Slots(Some(0), {0}, map[], [Task.Cancel(0)]);
    var s4 := Slots(None, {}, map[0 := Cancelled], []);
    assert Apply(Init(), BeginRead(0, false, false)) == s1 && Apply(s1, NextTask(Success)) == s2;
    assert Apply(s2, StopCallback(0)) == s3 && Apply(s3, NextTask(Success)) == s4;
    hide Apply;
    RunStep(s3, [NextTask(Success)]);
    RunStep(s2, [StopCallback(0), NextTask(Success)]);
    RunStep(s1, [NextTask(Success), StopCallback(0), NextTask(Success)]);
    RunStep(Init(), [BeginRead(0, false, false), NextTask(Success), StopCallback(0), NextTask(Success)]);
  }

  lemma RunStep(s: Slots, es: seq<Event>)
    requires es != []
    ensures Run(s, es) == Run(Apply(s, es[0]), es[1..])
    ensures Legal(s, es) <==> Enabled(s, es[0]) && Legal(Apply(s, es[0]), es[1..])
    ensures |es| == 4 ==> es[1..] == [es[1], es[2], es[3]]
    ensures |es| == 3 ==> es[1..] == [es[1], es[2]]
    ensures |es| == 2 ==> es[1..] == [es[1]]
    ensures |es| == 1 ==> es[1..] == [] && Run(s, es) == Apply(s, es[0])
  {
  }

  /** A read that ended keeps its result for good: bytes once received are returned, whatever is cancelled later. */
  lemma {:induction false} ResultsAreFinal(s: Slots, es: seq<Event>, id: Id)
    requires Inv(s) && Legal(s, es) && id in s.results
    ensures id in Run(s, es).results && Run(s, es).results[id] == s.results[id]
    decreases |es|
  {
    if es == [] {
    } else {
      ApplyKeeps(s, es[0]);
      ResultsAreFinal(Apply(s, es[0]), es[1..], id);
    }
  }

  /** Bytes that arrive while the slot is owned are what the owner returns, in every continuation of the run. */
  lemma BytesReachTheOwner(s: Slots, n: nat, es: seq<Event>)
    requires Inv(s) && s.owner.Some? && Legal(s, [Callback(Bytes(n))] + es)
    ensures var t := Run(s, [Callback(Bytes(n))] + es);
            s.owner.value in t.results && t.results[s.owner.value] == Returned(n)
  {
    var all := [Callback(Bytes(n))] + es;
    assert all[0] == Callback(Bytes(n)) && all[1..] == es;
    ApplyKeeps(s, all[0]);
    ResultsAreFinal(Apply(s, all[0]), es, s.owner.value);
  }

  /** A read that finds the slot taken fails busy, and the owner reads on undisturbed. */
  lemma ContenderIsBusy(s: Slots, rc: Status)
    requires Inv(s) && s.queue != [] && s.queue[0].Start? && s.queue[0].id in s.pending && s.owner.Some?
    ensures var t := RunTask(s, rc);
            && t.results == s.results[s.queue[0].id := Threw(Busy)]
            && t.owner == s.owner && s.owner.value in t.pending
  {
    assert s.queue[0] in s.queue;
  }

  /** With the queue drained, the only read that can still be waiting is the owner of the slot. */
  lemma DrainedLeavesOwnerOnly(s: Slots)
    requires Inv(s) && s.queue == []
    ensures s.pending == if s.owner.Some? then {s.owner.value} else {}
  {
  }
}
