/** Single-threaded coroutines that use one semaphore, as a machine with an explicit stack: the innermost coroutine runs
    on top, a `release` keeps the permits it has yet to hand out below the coroutine it has resumed. */
module InlineMachine {
  import opened Waiters
  import opened Counting
  import P = PermitSpec

  /** `stopped`: the stop token of this acquire is already requested.  The nested scripts are what the coroutine does
      instead of its own rest when an acquire is cancelled, a `try_acquire` finds no permit, a `release` throws, or
      `available` reports less than it looks for; `Spawn` runs another coroutine until that one suspends or ends. */
  datatype Op =
    | Acquire(stopped: bool, onCancel: seq<Op>)
    | TryAcquire(onFail: seq<Op>)
    | Release(count: int, onError: seq<Op>)
    | Available(atLeast: int, otherwise: seq<Op>)
    | Spawn(script: seq<Op>)

  datatype Outcome = Acquired | StoppedEarly | Suspended

  datatype Frame = Frame(granted: seq<Op>, cancelled: seq<Op>)

  datatype Task = Code(script: seq<Op>) | Share(left: nat)

  datatype Machine = Machine(sem: P.Permits, frames: map<Id, Frame>, next: Id, stack: seq<Task>)

  /** One step of the task on top. */
  function Step(m: Machine): Machine
    requires m.stack != []
  {
    match m.stack[0]
    case Share(left) => StepShare(m.(stack := m.stack[1..]), left)
    case Code(script) =>
      if script == [] then m.(stack := m.stack[1..]) else StepOp(m.(stack := m.stack[1..]), script[0], script[1..])
  }

  /** A release with `left` permits to hand out: the oldest waiter gets one and runs, or they all become free. */
  function StepShare(m: Machine, left: nat): Machine {
    if left > 0 && m.sem.queue != [] then
      var w := m.sem.queue[0];
      m.(sem := m.sem.(queue := m.sem.queue[1..], granted := m.sem.granted + [w]),
         stack := [Code(if w in m.frames then m.frames[w].granted else []), Share(left - 1)] + m.stack)
    else m.(sem := m.sem.(permits := m.sem.permits + left))
  }

  function Go(m: Machine, rest: seq<Op>): Machine {
    m.(stack := [Code(rest)] + m.stack)
  }

  function StepOp(m: Machine, op: Op, rest: seq<Op>): Machine {
    match op
    case TryAcquire(onFail) =>
      if m.sem.permits > 0 then Go(m.(sem := P.Grant(m.sem, m.next), next := m.next + 1), rest) else Go(m, onFail)
    case Acquire(stopped, onCancel) =>
      if m.sem.permits > 0 then Go(m.(sem := P.Grant(m.sem, m.next), next := m.next + 1), rest)
      else if stopped then
        Go(m.(sem := m.sem.(cancelled := m.sem.cancelled + {m.next}), next := m.next + 1), onCancel)
      else
        m.(sem := m.sem.(queue := m.sem.queue + [m.next], arrivals := m.sem.arrivals + [m.next]),
           frames := m.frames[m.next := Frame(rest, onCancel)], next := m.next + 1)
    case Release(count, onError) =>
      if count <= 0 then Go(m, onError)
      else m.(sem := m.sem.(released := m.sem.released + count), stack := [Share(count), Code(rest)] + m.stack)
    case Available(atLeast, otherwise) => Go(m, if m.sem.permits < atLeast then otherwise else rest)
    case Spawn(script) => m.(stack := [Code(script), Code(rest)] + m.stack)
  }

  function Steps(m: Machine, n: nat): Machine
    decreases n
  {
    if n == 0 || m.stack == [] then m else Steps(Step(m), n - 1)
  }

  lemma {:induction false} StepsAdd(m: Machine, a: nat, b: nat)
    ensures Steps(m, a + b) == Steps(Steps(m, a), b)
    decreases a
  {
    hide Step;
    if a == 0 || m.stack == [] {
      Halted(m, a + b);
      Halted(m, b);
    } else {
      StepsAdd(Step(m), a - 1, b);
    }
  }

  lemma Halted(m: Machine, n: nat)
    ensures m.stack == [] ==> Steps(m, n) == m
    ensures n == 0 ==> Steps(m, n) == m
  {
  }

  lemma OneStep(m: Machine)
    requires m.stack != []
    ensures Steps(m, 1) == Step(m)
  {
    hide Step;
    Halted(Step(m), 0);
  }

  /** A run that goes one step further. */
  lemma StepsThen(m: Machine, n: nat, t: Machine)
    requires Steps(m, n) == t && t.stack != []
    ensures Steps(m, n + 1) == Step(t)
  {
    hide Step;
    StepsAdd(m, n, 1);
    OneStep(t);
  }
}
