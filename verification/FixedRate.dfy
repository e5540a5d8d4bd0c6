/** The fixed-rate periodic task: deadlines on the grid start + k * interval, missed slots skipped. */
module FixedRate {

  /** The grid of deadlines of a task started at `start`. */
  function Slot(start: int, interval: int, k: nat): int {
    start + k * interval
  }

  /** The number of the first slot after `now`, computed by division. */
  function FirstAfter(start: int, interval: int, now: int): int
    requires interval > 0
  {
    (now - start) / interval + 1
  }

  /** Slot `k` is the least one from slot `from` on that lies in the future. */
  ghost predicate LeastFuture(start: int, interval: int, from: nat, now: int, k: nat) {
    && from <= k && Slot(start, interval, k) > now
    && forall j: nat :: from <= j < k ==> Slot(start, interval, j) <= now
  }

  lemma SlotStep(start: int, interval: int, k: nat)
    ensures Slot(start, interval, k + 1) == Slot(start, interval, k) + interval
  {
  }

  lemma FirstSlot(start: int, interval: int)
    ensures Slot(start, interval, 1) == start + interval
  {
  }

  lemma {:induction false} SlotsIncrease(start: int, interval: int, j: nat, k: nat)
    requires interval > 0 && j < k
    ensures Slot(start, interval, j) < Slot(start, interval, k)
    decreases k
  {
    SlotStep(start, interval, k - 1);
    if j < k - 1 {
      SlotsIncrease(start, interval, j, k - 1);
    }
  }

  lemma DivisionBounds(d: int, interval: int)
    requires interval > 0
    ensures (d / interval) * interval <= d < (d / interval) * interval + interval
  {
    assert d == (d / interval) * interval + d % interval;
  }

  /** The catch-up loop stops where the division says: at the first future slot, or where it stood if that is later. */
  lemma ClosedForm(start: int, interval: int, from: nat, now: int, k: nat)
    requires interval > 0
    ensures LeastFuture(start, interval, from, now, k) <==>
            k == (if FirstAfter(start, interval, now) > from then FirstAfter(start, interval, now) else from)
  {
    var f := FirstAfter(start, interval, now);
    DivisionBounds(now - start, interval);
    var c: int := if f > from then f else from;
    assert c >= 0;
    var target: nat := c;
    assert (f - 1) * interval == ((now - start) / interval) * interval;
    SlotIsMonotone(start, interval, f, target);
    forall j: nat | from <= j < target ensures Slot(start, interval, j) <= now {
      MulMonotone(j, f - 1, interval);
    }
    assert LeastFuture(start, interval, from, now, target);
    assert from <= k < target ==> Slot(start, interval, k) <= now;
    assert LeastFuture(start, interval, from, now, k) && target < k ==> Slot(start, interval, target) <= now;
  }

  lemma MulMonotone(a: int, b: int, m: int)
    requires a <= b && m > 0
    ensures a * m <= b * m
  {
  }

  lemma SlotIsMonotone(start: int, interval: int, f: int, k: nat)
    requires interval > 0 && f <= k
    ensures Slot(start, interval, k) >= start + f * interval
  {
    MulMonotone(f, k, interval);
  }

  /** The inner loop: skips the slots that have passed. */
  method CatchUp(nextDeadline: int, interval: int, now: int, ghost start: int, ghost from: nat)
    returns (deadline: int, ghost k: nat)
    requires interval > 0 && nextDeadline == Slot(start, interval, from)
    ensures deadline == Slot(start, interval, k) && LeastFuture(start, interval, from, now, k)
    ensures deadline > now && (deadline == nextDeadline || deadline - interval <= now)
  {
    deadline, k := nextDeadline, from;
    while deadline <= now
      invariant deadline == Slot(start, interval, k) && from <= k
      invariant deadline == nextDeadline || deadline - interval <= now
      invariant forall j: nat :: from <= j < k ==> Slot(start, interval, j) <= now
      decreases now - deadline
    {
      SlotStep(start, interval, k);
      deadline, k := deadline + interval, k + 1;
    }
  }

  /** One turn of the task: the clock as it is read, and where the turn ends. */
  datatype Turn = Turn(now: int, end: TurnEnd)

  /** Stop is seen at the head of the loop, thrown out of the sleep, seen after it, or the task body runs. */
  datatype TurnEnd = StopAtHead | CancelledInSleep | StopAfterSleep | Ran | BodyCancelled

  /** The first slot that turn `i` may still use. */
  ghost function NextSlot(slots: seq<nat>, i: nat): nat
    requires i <= |slots|
  {
    if i == 0 then 1 else slots[i - 1] + 1
  }

  /** `awaited`: the deadlines slept for, in order; `slots`: their numbers.  No slot is used twice, and each is the
      least unused one that lies in the future when its turn reads the clock. */
  ghost predicate Schedule(created: int, interval: int, turns: seq<Turn>, awaited: seq<int>, slots: seq<nat>) {
    && |awaited| == |slots| <= |turns|
    && (forall i {:trigger awaited[i]} :: 0 <= i < |slots| ==> awaited[i] == Slot(created, interval, slots[i]) && slots[i] >= 1)
    && (forall i, j :: 0 <= i < j < |slots| ==> slots[i] < slots[j])
    && (forall i {:trigger awaited[i]} :: 0 <= i < |slots| ==>
          LeastFuture(created, interval, NextSlot(slots, i), turns[i].now, slots[i]))
  }

  lemma ScheduleOneMore(created: int, interval: int, turns: seq<Turn>, awaited: seq<int>, slots: seq<nat>, k: nat)
    requires Schedule(created, interval, turns, awaited, slots) && |slots| < |turns|
    requires LeastFuture(created, interval, NextSlot(slots, |slots|), turns[|slots|].now, k)
    ensures Schedule(created, interval, turns, awaited + [Slot(created, interval, k)], slots + [k])
  {
    assert NextSlot(slots, |slots|) <= k;
    assert k >= 1 && forall i :: 0 <= i < |slots| ==> slots[i] < k by {
      forall i | 0 <= i < |slots| ensures slots[i] < k {
        assert i < |slots| - 1 ==> slots[i] < slots[|slots| - 1];
      }
      assert |slots| > 0 ==> awaited[|slots| - 1] == Slot(created, interval, slots[|slots| - 1]);
    }
    hide Slot, LeastFuture;
    var more, times := slots + [k], awaited + [Slot(created, interval, k)];
    forall i | 0 <= i < |more|
      ensures times[i] == Slot(created, interval, more[i]) && more[i] >= 1
      ensures LeastFuture(created, interval, NextSlot(more, i), turns[i].now, more[i]) {
      assert NextSlot(more, i) == NextSlot(slots, i);
      assert i < |slots| ==> times[i] == awaited[i];
    }
  }

  /** The task over any readings of the clock. */
  method RunFixedRate(created: int, interval: int, turns: seq<Turn>)
    returns (awaited: seq<int>, ghost slots: seq<nat>, runs: nat)
    requires interval > 0
    ensures Schedule(created, interval, turns, awaited, slots)
    ensures forall i :: 0 <= i < |awaited| - 1 ==> turns[i].end == Ran
    ensures |awaited| > 0 ==> turns[|awaited| - 1].end != StopAtHead
    ensures |awaited| < |turns| ==>
              turns[|awaited|].end == StopAtHead || (|awaited| > 0 && turns[|awaited| - 1].end != Ran)
    ensures runs == if |awaited| > 0 && turns[|awaited| - 1].end in {CancelledInSleep, StopAfterSleep}
                    then |awaited| - 1 else |awaited|
  {
    awaited, slots, runs := [], [], 0;
    FirstSlot(created, interval);
    assert Schedule(created, interval, turns, awaited, slots);
    hide Slot, LeastFuture, Schedule;
    var nextDeadline := created + interval;
    for i := 0 to |turns|
      invariant |awaited| == |slots| == i == runs
      invariant forall x :: 0 <= x < i ==> turns[x].end == Ran
      invariant nextDeadline == Slot(created, interval, NextSlot(slots, i))
      invariant Schedule(created, interval, turns, awaited, slots)
    {
      var turn := turns[i];
      if turn.end == StopAtHead {
        return;
      }
      ghost var k: nat;
      nextDeadline, k := CatchUp(nextDeadline, interval, turn.now, created, NextSlot(slots, i));
      ScheduleOneMore(created, interval, turns, awaited, slots, k);
      awaited, slots := awaited + [nextDeadline], slots + [k];
      if turn.end == CancelledInSleep || turn.end == StopAfterSleep {
        return;
      }
      runs := runs + 1;
      if turn.end == BodyCancelled {
        return;
      }
      SlotStep(created, interval, k);
      nextDeadline := nextDeadline + interval;
    }
  }

  /** Every slot fires at most once: the awaited deadlines strictly increase. */
  lemma DeadlinesIncrease(created: int, interval: int, turns: seq<Turn>, awaited: seq<int>, slots: seq<nat>)
    requires interval > 0 && Schedule(created, interval, turns, awaited, slots)
    ensures forall i, j :: 0 <= i < j < |awaited| ==> awaited[i] < awaited[j]
  {
    forall i, j | 0 <= i < j < |awaited| ensures awaited[i] < awaited[j] {
      SlotsIncrease(created, interval, slots[i], slots[j]);
    }
  }

  /** Each awaited deadline, computed by division: the least future slot, or the one after the last if that is later. */
  lemma DeadlineByDivision(created: int, interval: int, turns: seq<Turn>, awaited: seq<int>, slots: seq<nat>, i: nat)
    requires interval > 0 && Schedule(created, interval, turns, awaited, slots) && i < |awaited|
    ensures var f, next := FirstAfter(created, interval, turns[i].now), NextSlot(slots, i);
            awaited[i] == created + (if f > next then f else next) * interval
  {
    ClosedForm(created, interval, NextSlot(slots, i), turns[i].now, slots[i]);
  }
}
