/** User-level threads as values: what each thread program does between two points where the scheduler may
    take over, and what the scheduler does with its two queues. */
module GreenThreads {

  const NOBODY := -1

  datatype Kind = Fibonacci | Factorial | Bank

  /** Where a thread resumes: at its start, after the yield in its loop, or, for a bank operation, after
      `lock`, after its first yield, after its second. */
  datatype Pc = Fresh | Looping | Locked | Step2 | Step3

  datatype Thread = Thread(id: int, kind: Kind, arg: int, pc: Pc, i: int, x: int, y: int)

  datatype Line = Value(id: int, value: int) | Acquired(id: int) | Balance(id: int, before: int,
      after: int) | Released(id: int)

  /** How a thread gives control back: by `thread_yield`, by `lock`, by `thread_exit`. */
  datatype Outcome = Yields | Blocks | Exits

  datatype Move = Move(id: int, amount: int)

  /** The queues, the bank, what has been printed, and three histories: who has called `lock`, who has got
      the lock, and the updates of the balance. */
  datatype Machine = Machine(ready: seq<Thread>, cur: nat, waiting: seq<Thread>, owner: int, balance: int,
      log: seq<Line>,
                             asked: seq<int>, got: seq<int>, applied: seq<Move>)

  // ---------- the thread programs ----------

  function FibonacciTurn(t: Thread): Thread {
    var i := if t.pc == Fresh then 1 else t.i + 1;
    if i <= 2 then t.(pc := Looping, i := i, x := 1, y := 1) else t.(pc := Looping, i := i, x := t.y, y := t.x + t.y)
  }

  function FactorialTurn(t: Thread): Thread {
    var i := if t.pc == Fresh then 1 else t.i + 1;
    var x := if t.pc == Fresh then 1 else t.x;
    t.(pc := Looping, i := i, x := x * i)
  }

  predicate Accepts(balance: int, amount: int) {
    amount > 0 || (amount < 0 && balance + amount >= 0)
  }

  function Updated(balance: int, amount: int): int {
    if Accepts(balance, amount) then balance + amount else balance
  }

  function OutcomeOf(m: Machine): Outcome
    requires m.cur < |m.ready|
  {
    var t := m.ready[m.cur];
    if t.kind == Bank then
      if t.pc == Fresh && m.owner != NOBODY then Blocks else if t.pc == Step3 then Exits else Yields
    else if (if t.pc == Fresh then 1 else t.i + 1) == t.arg then Exits
    else Yields
  }

  function BankTurn(m: Machine): Machine
    requires m.cur < |m.ready|
  {
    var t := m.ready[m.cur];
    if t.pc == Fresh then
      if m.owner == NOBODY then
        m.(owner := t.id, asked := m.asked + [t.id], got := m.got + [t.id],
           ready := m.ready[m.cur := t.(pc := Step2)], log := m.log + [Acquired(t.id)])
      else
        m.(asked := m.asked + [t.id], ready := m.ready[m.cur := t.(pc := Locked)])
    else if t.pc == Step2 then
      m.(balance := Updated(m.balance, t.arg), applied := m.applied + [Move(t.id, t.arg)],
         ready := m.ready[m.cur := t.(pc := Step3)],
             log := m.log + [Balance(t.id, m.balance, Updated(m.balance, t.arg))])
    else if t.pc == Step3 then
      m.(owner := if m.owner == t.id then NOBODY else m.owner, log := m.log + [Released(t.id)])
    else
      m.(ready := m.ready[m.cur := t.(pc := Step2)], log := m.log + [Acquired(t.id)])
  }

  /** The running thread, from where it resumes to where it gives control back. */
  function Turn(m: Machine): Machine
    requires m.cur < |m.ready|
  {
    var t := m.ready[m.cur];
    if t.kind == Bank then BankTurn(m)
    else
      var u := if t.kind == Fibonacci then FibonacciTurn(t) else FactorialTurn(t);
      m.(ready := m.ready[m.cur := u], log := m.log + [Value(t.id, if t.kind == Fibonacci then u.y else u.x)])
  }

  // ---------- the scheduler ----------

  /** The lock is free and somebody waits: the first in line gets the lock and becomes ready. */
  function HandOff(m: Machine): Machine {
    if m.owner == NOBODY && m.waiting != [] then
      var t := m.waiting[0];
      m.(owner := t.id, ready := m.ready + [t], waiting := m.waiting[1..], got := m.got + [t.id])
    else m
  }

  /** The last ready thread takes the place of the running one. */
  function DropRunning(m: Machine): Machine
    requires m.cur < |m.ready|
  {
    var n := |m.ready|;
    if m.cur < n - 1 then m.(ready := m.ready[m.cur := m.ready[n - 1]][..n - 1])
        else m.(ready := m.ready[..n - 1], cur := 0)
  }

  /** One entry of the scheduler. */
  function Schedule(m: Machine, how: Outcome): Machine
    requires m.cur < |m.ready|
  {
    var h := HandOff(m);
    match how
    case Yields => h.(cur := (h.cur + 1) % |h.ready|)
    case Blocks => DropRunning(h.(waiting := h.waiting + [h.ready[h.cur]]))
    case Exits => DropRunning(h)
  }

  /** One turn of the running thread. At a yield the thread is switched if a signal is pending, and carries
      on if not. */
  function Step(m: Machine, signal: bool): Machine
    requires m.cur < |m.ready|
  {
    var how, n := OutcomeOf(m), Turn(m);
    if how == Yields && !signal then n else Schedule(n, how)
  }

  /** A run, one entry for each turn. The scheduler returns when no thread is ready. */
  ghost predicate Legal(m: Machine, run: seq<bool>)
    decreases |run|
  {
    run == [] || (m.cur < |m.ready| && Legal(Step(m, run[0]), run[1..]))
  }

  ghost function After(m: Machine, run: seq<bool>): Machine
    requires Legal(m, run)
    decreases |run|
  {
    if run == [] then m else After(Step(m, run[0]), run[1..])
  }

  // ---------- the start ----------

  /** Threads as `thread_setup` leaves them; i, x and y hold anything. */
  ghost predicate Created(threads: seq<Thread>) {
    && (forall k :: 0 <= k < |threads| ==>
          threads[k].pc == Fresh && threads[k].id != NOBODY && (threads[k].kind != Bank ==> threads[k].arg > 0))
    && (forall j, k :: 0 <= j < k < |threads| ==> threads[j].id != threads[k].id)
  }

  function Start(threads: seq<Thread>, balance: int): Machine {
    Machine(threads, 0, [], NOBODY, balance, [], [], [], [])
  }
}
