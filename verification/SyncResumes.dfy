/** How often the waiters of `async_mutex`, `async_semaphore` and `async_condition_variable` are resumed.  A waiter is
    visible in its queue before `await_suspend` has returned.  Whoever ends it resumes it later, after leaving the lock,
    if it finds a continuation stored by then; and `await_suspend` may still report that it need not suspend. */
module SyncResumes {
  import opened Waiters
  import opened Counting
  import P = PermitSpec

  datatype Waits = Waits(
    permits: P.Permits,
    open: set<Id>,              // queued, and `await_suspend` has yet to decide
    stored: set<Id>,            // continuation stored
    caught: set<Id>,            // ended while open
    waking: set<Id>,            // ended, and yet to be passed to `resume_waiter`
    resumed: multiset<Id>,      // resumptions by whoever ended the waiter
    continued: multiset<Id>)    // went on without suspending

  datatype Step =
    | Region(request: P.Event, early: bool)   // `early`: the continuation is stored before the waiter is queued
    | Wake(id: Id)                            // `resume_waiter`
    | Look(id: Id)                            // `await_ready` of the condition variable
    | Store(id: Id)                           // its continuation
    | Check(id: Id)                           // the last lock of `await_suspend`

  function Init(initial: nat): Waits {
    Waits(P.Init(initial), {}, {}, {}, {}, multiset{}, multiset{})
  }

  predicate Ended(p: P.Permits, w: Id) {
    w in p.granted || w in p.cancelled
  }

  ghost predicate Enabled(s: Waits, step: Step) {
    match step
    case Region(e, _) => P.Enabled(s.permits, e)
    case Wake(w) => w in s.waking
    case Look(w) => w in s.open && w !in s.stored
    case Store(w) => w in s.open && w !in s.stored
    case Check(w) => w in s.open && w in s.stored
  }

  /** The queued waiters that a region ends. */
  ghost function Woken(p: P.Permits, e: P.Event): set<Id> {
    set w | w in p.queue && Ended(P.Apply(p, e), w)
  }

  /** The request a region is made for, if it makes one. */
  function Own(e: P.Event): set<Id> {
    match e
    case Try(w) => {w}
    case Wait(w, _) => {w}
    case _ => {}
  }

  ghost function Apply(s: Waits, step: Step): Waits {
    match step
    case Region(e, early) =>
      var p := P.Apply(s.permits, e);
      var queued := set w | w in Own(e) && w in p.queue;
      var woken := Woken(s.permits, e);
      Waits(p, s.open + queued, if early then s.stored + queued else s.stored,
            s.caught + woken * s.open,
            s.waking + (if e.Stop? then woken * s.stored else woken),
            s.resumed,
            s.continued + multiset(set w | w in Own(e) && Ended(p, w)))
    case Wake(w) =>
      s.(waking := s.waking - {w}, resumed := if w in s.stored then s.resumed + multiset{w} else s.resumed)
    case Look(w) => if Ended(s.permits, w) then GoOn(s, w) else s
    case Store(w) => s.(stored := s.stored + {w})
    case Check(w) => if Ended(s.permits, w) then GoOn(s, w) else s.(open := s.open - {w})
  }

  function GoOn(s: Waits, w: Id): Waits {
    s.(open := s.open - {w}, continued := s.continued + multiset{w})
  }

  ghost predicate Legal(s: Waits, es: seq<Step>)
    decreases |es|
  {
    es != [] ==> Enabled(s, es[0]) && Legal(Apply(s, es[0]), es[1..])
  }

  ghost function Run(s: Waits, es: seq<Step>): Waits
    decreases |es|
  {
    if es == [] then s else Run(Apply(s, es[0]), es[1..])
  }

  function Total(s: Waits, w: Id): nat {
    s.resumed[w] + s.continued[w]
  }

  /** The race: `w`, ended before its `await_suspend` had decided, is resumed with its continuation stored. */
  ghost predicate Races(s: Waits, step: Step, w: Id) {
    step == Wake(w) && w in s.caught && w in s.stored
  }

  ghost predicate RacesIn(s: Waits, es: seq<Step>, w: Id)
    decreases |es|
  {
    es != [] && (Races(s, es[0], w) || RacesIn(Apply(s, es[0]), es[1..], w))
  }

  ghost predicate Inv(s: Waits) {
    && P.Inv(s.permits)
    && (forall w :: w in s.open || w in s.stored ==> w in s.permits.queue || Ended(s.permits, w))
    && (forall w :: w in s.permits.queue && w !in s.open ==> w in s.stored)
    && (forall w :: w in s.caught || w in s.waking ==> Ended(s.permits, w))
    && (forall w :: w in s.open && Ended(s.permits, w) ==> w in s.caught)
    && (forall w :: w in s.waking && w !in s.caught ==> w in s.stored && w !in s.open)
  }

  /** What has been counted for `w`, given whether it has raced. */
  ghost predicate Counted(s: Waits, w: Id, raced: bool) {
    && (raced ==> w in s.caught && w !in s.waking)
    && Total(s, w) == (if !Ended(s.permits, w) then 0
                       else if w in s.caught then One(w !in s.open) + One(raced)
                       else One(w !in s.waking))
  }

  /** Who is ended, and who is queued, after a region. */
  lemma RegionEnds(p: P.Permits, e: P.Event, w: Id)
    requires P.Inv(p) && P.Enabled(p, e)
    ensures var q := P.Apply(p, e);
            && (Ended(q, w) <==> Ended(p, w) || w in Woken(p, e) || (w in Own(e) && Ended(q, w)))
            && (w in p.queue ==> !Ended(p, w) && w !in Own(e) && (w in q.queue || w in Woken(p, e)))
            && (w in q.queue ==> w in p.queue || w in Own(e))
            && (w in Own(e) ==> w !in p.queue && !Ended(p, w))
            && (w in q.queue ==> !Ended(q, w))
  {
    P.OneOutcome(p);
    P.ApplyKeeps(p, e);
    P.OneOutcome(P.Apply(p, e));
    match e {
      case GiveBack(n) =>
        var k := Min(n, |p.queue|);
        assert p.queue == p.queue[..k] + p.queue[k..];
      case Stop(v) => WithoutMembers(p.queue, v);
      case _ =>
    }
  }

  lemma RegionKeeps(s: Waits, e: P.Event, early: bool)
    requires Inv(s) && P.Enabled(s.permits, e)
    ensures Inv(Apply(s, Region(e, early)))
  {
    var t := Apply(s, Region(e, early));
    P.ApplyKeeps(s.permits, e);
    hide P.Inv, P.Apply;
    forall w | w in t.open || w in t.stored ensures w in t.permits.queue || Ended(t.permits, w) {
      RegionEnds(s.permits, e, w);
    }
    forall w | w in t.permits.queue && w !in t.open ensures w in t.stored {
      RegionEnds(s.permits, e, w);
    }
    forall w | w in t.caught || w in t.waking ensures Ended(t.permits, w) {
      RegionEnds(s.permits, e, w);
    }
    forall w | w in t.open && Ended(t.permits, w) ensures w in t.caught {
      RegionEnds(s.permits, e, w);
    }
    forall w | w in t.waking && w !in t.caught ensures w in t.stored && w !in t.open {
      RegionEnds(s.permits, e, w);
    }
  }

  lemma ApplyKeeps(s: Waits, step: Step)
    requires Inv(s) && Enabled(s, step)
    ensures Inv(Apply(s, step))
  {
    if step.Region? {
      RegionKeeps(s, step.request, step.early);
    } else {
      P.OneOutcome(s.permits);
      hide P.Inv;
    }
  }

  lemma RegionCounts(s: Waits, step: Step, w: Id, raced: bool)
    requires Inv(s) && Enabled(s, step) && Counted(s, w, raced) && step.Region?
    ensures Counted(Apply(s, step), w, raced || Races(s, step, w))
  {
    RegionEnds(s.permits, step.request, w);
    hide P.Inv, P.Apply, P.Enabled;
  }

  lemma StepCounts(s: Waits, step: Step, w: Id, raced: bool)
    requires Inv(s) && Enabled(s, step) && Counted(s, w, raced)
    ensures Counted(Apply(s, step), w, raced || Races(s, step, w))
  {
    if step.Region? {
      RegionCounts(s, step, w, raced);
    } else {
      hide P.Inv, P.Apply, P.Enabled;
    }
  }

  lemma {:induction false} RunCounts(s: Waits, es: seq<Step>, w: Id, raced: bool)
    requires Inv(s) && Legal(s, es) && Counted(s, w, raced)
    ensures Inv(Run(s, es)) && Counted(Run(s, es), w, raced || RacesIn(s, es, w))
    decreases |es|
  {
    hide Inv, Apply, Enabled, Counted, Races;
    if es == [] {
    } else {
      StepCounts(s, es[0], w, raced);
      ApplyKeeps(s, es[0]);
      RunCounts(Apply(s, es[0]), es[1..], w, raced || Races(s, es[0], w));
    }
  }

  /** Over every run: a waiter is not resumed before it ends; once its `await_suspend` has decided and whoever ended it
      has passed it to `resume_waiter`, it has been resumed exactly once, or twice exactly if it raced. */
  lemma ResumedOnceUnlessRaced(initial: nat, es: seq<Step>, w: Id)
    requires Legal(Init(initial), es)
    ensures var t, raced := Run(Init(initial), es), RacesIn(Init(initial), es, w);
            && Total(t, w) <= 2 && (!Ended(t.permits, w) ==> Total(t, w) == 0)
            && (w !in t.open && w !in t.waking ==> Total(t, w) == One(Ended(t.permits, w)) + One(raced))
            && (raced ==> Ended(t.permits, w) && w in t.caught)
  {
    RunCounts(Init(initial), es, w, false);
  }

  /** A waiter that `await_ready` finds ended goes on at once: it stores no continuation and checks no more. */
  lemma ReadyGoesOn(s: Waits, w: Id)
    requires Enabled(s, Look(w)) && Ended(s.permits, w)
    ensures var t := Apply(s, Look(w));
            Total(t, w) == Total(s, w) + 1 && !Enabled(t, Store(w)) && !Enabled(t, Check(w))
  {
  }

  // A mutex or semaphore stores the continuation first: there, ended before the last check means resumed twice.

  predicate Early(step: Step) {
    step.Region? ==> step.early
  }

  ghost predicate EarlyInv(s: Waits, w: Id, raced: bool) {
    && Inv(s) && s.open <= s.stored && s.caught <= s.stored
    && (w in s.caught && w !in s.waking ==> raced)
  }

  lemma EarlyStep(s: Waits, step: Step, w: Id, raced: bool)
    requires EarlyInv(s, w, raced) && Enabled(s, step) && Early(step)
    ensures EarlyInv(Apply(s, step), w, raced || Races(s, step, w))
  {
    ApplyKeeps(s, step);
    hide P.Inv, P.Apply, P.Enabled;
  }

  lemma {:induction false} EarlyRaces(s: Waits, es: seq<Step>, w: Id, raced: bool)
    requires EarlyInv(s, w, raced) && Legal(s, es) && forall e :: e in es ==> Early(e)
    ensures EarlyInv(Run(s, es), w, raced || RacesIn(s, es, w))
    decreases |es|
  {
    hide Apply, Enabled, EarlyInv, Races;
    if es == [] {
    } else {
      EarlyStep(s, es[0], w, raced);
      EarlyRaces(Apply(s, es[0]), es[1..], w, raced || Races(s, es[0], w));
    }
  }

  /** For a mutex or a semaphore: twice exactly if the waiter was ended between its push and its last check. */
  lemma ResumedTwiceIffCaught(initial: nat, es: seq<Step>, w: Id)
    requires Legal(Init(initial), es) && forall e :: e in es ==> Early(e)
    ensures var t := Run(Init(initial), es);
            w !in t.open && w !in t.waking ==> (Total(t, w) == 2 <==> w in t.caught)
  {
    hide Apply, Enabled, Run, Legal;
    ResumedOnceUnlessRaced(initial, es, w);
    EarlyRaces(Init(initial), es, w, false);
  }

  lemma StepThen(s: Waits, step: Step, es: seq<Step>)
    requires Enabled(s, step) && Legal(Apply(s, step), es)
    ensures Legal(s, [step] + es) && Run(s, [step] + es) == Run(Apply(s, step), es)
  {
    assert ([step] + es)[1..] == es;
  }

  lemma NoSteps(s: Waits)
    ensures Legal(s, []) && Run(s, []) == s
  {
  }

  /** Request 0 holds the mutex; request 1 is queued. */
  function Queued(): Waits {
    Waits(P.Permits(0, [1], [0], {}, [0, 1], 1, 0), {1}, {1}, {}, {}, multiset{}, multiset{0})
  }

  function Held(): Waits {
    Waits(P.Permits(0, [], [0], {}, [0], 1, 0), {}, {}, {}, {}, multiset{}, multiset{0})
  }

  lemma FirstArrives()
    ensures Enabled(Init(1), Region(P.Try(0), true)) && Apply(Init(1), Region(P.Try(0), true)) == Held()
  {
    var p := P.Apply(P.Init(1), P.Try(0));
    assert p == Held().permits;
    assert Woken(P.Init(1), P.Try(0)) == {} && Own(P.Try(0)) == {0};
    assert (set w | w in Own(P.Try(0)) && Ended(p, w)) == {0};
  }

  lemma SecondArrives()
    ensures Enabled(Held(), Region(P.Wait(1, false), true))
    ensures Apply(Held(), Region(P.Wait(1, false), true)) == Queued()
  {
    var u := P.Apply(Held().permits, P.Wait(1, false));
    assert u == Queued().permits;
    assert Woken(Held().permits, P.Wait(1, false)) == {} && Own(P.Wait(1, false)) == {1};
    assert (set w | w in Own(P.Wait(1, false)) && w in u.queue) == {1};
    assert (set w | w in Own(P.Wait(1, false)) && Ended(u, w)) == {};
  }

  lemma HandOverRaces()
    ensures var s := Apply(Queued(), Region(P.GiveBack(1), true));
            && Enabled(Queued(), Region(P.GiveBack(1), true)) && Enabled(s, Wake(1))
            && Enabled(Apply(s, Wake(1)), Check(1)) && Total(Apply(Apply(s, Wake(1)), Check(1)), 1) == 2
  {
    var p := P.Apply(Queued().permits, P.GiveBack(1));
    assert p.granted == [0, 1] && p.queue == [];
    assert Woken(Queued().permits, P.GiveBack(1)) == {1} && {1} * {1} == {1};
  }

  /** A lock that is handed over before the waiter's last check resumes it twice. */
  lemma DoubleResumeExample()
    ensures var es := [Region(P.Try(0), true), Region(P.Wait(1, false), true), Region(P.GiveBack(1), true),
                      Wake(1), Check(1)];
            Legal(Init(1), es) && Total(Run(Init(1), es), 1) == 2
  {
    hide Apply, Enabled, Legal, Run, Held, Queued, Total;
    var a, b, c := Region(P.Try(0), true), Region(P.Wait(1, false), true), Region(P.GiveBack(1), true);
    FirstArrives();
    SecondArrives();
    HandOverRaces();
    var s := Apply(Queued(), c);
    var t := Apply(s, Wake(1));
    NoSteps(Apply(t, Check(1)));
    StepThen(t, Check(1), []);
    StepThen(s, Wake(1), [Check(1)] + []);
    StepThen(Queued(), c, [Wake(1)] + ([Check(1)] + []));
    StepThen(Held(), b, [c] + ([Wake(1)] + ([Check(1)] + [])));
    StepThen(Init(1), a, [b] + ([c] + ([Wake(1)] + ([Check(1)] + []))));
    assert [a] + ([b] + ([c] + ([Wake(1)] + ([Check(1)] + [])))) == [a, b, c, Wake(1), Check(1)];
  }
}
