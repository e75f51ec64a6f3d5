/** What every run of the scheduler keeps about its queues and the lock. */
module SchedulerInvariant {
  import opened GreenThreads

  function Fib(n: nat): nat {
    if n < 2 then n else Fib(n - 1) + Fib(n - 2)
  }

  function Fact(n: nat): nat {
    if n == 0 then 1 else n * Fact(n - 1)
  }

  /** What a thread keeps between its turns. */
  ghost predicate Good(t: Thread) {
    && t.id != NOBODY
    && match t.kind
       case Bank => t.pc != Looping
       case Fibonacci =>
         t.arg > 0 && (t.pc == Fresh ||
           (t.pc == Looping && 1 <= t.i < t.arg && t.y == Fib(t.i) && t.x == Fib(if t.i == 1 then 1 else t.i - 1)))
       case Factorial => t.arg > 0 && (t.pc == Fresh || (t.pc == Looping && 1 <= t.i < t.arg && t.x == Fact(t.i)))
  }

  /** Between `lock` and `unlock`. */
  predicate Inside(t: Thread) {
    t.pc == Locked || t.pc == Step2 || t.pc == Step3
  }

  ghost predicate Distinct(ts: seq<Thread>) {
    forall j, k :: 0 <= j < k < |ts| ==> ts[j].id != ts[k].id
  }

  ghost predicate Apart(a: seq<Thread>, b: seq<Thread>) {
    forall j, k :: 0 <= j < |a| && 0 <= k < |b| ==> a[j].id != b[k].id
  }

  ghost predicate Present(ts: seq<Thread>, id: int) {
    exists k :: 0 <= k < |ts| && ts[k].id == id
  }

  /** The ready threads other than the running one: exactly the lock owner is between lock and unlock. */
  ghost predicate Others(m: Machine) {
    forall k :: 0 <= k < |m.ready| && k != m.cur ==>
      Good(m.ready[k]) && (Inside(m.ready[k]) <==> m.ready[k].id == m.owner) && m.ready[k].pc != Locked
  }

  ghost predicate InLine(m: Machine) {
    forall k :: 0 <= k < |m.waiting| ==>
      Good(m.waiting[k]) && m.waiting[k].kind == Bank && m.waiting[k].pc == Locked && m.waiting[k].id != m.owner
  }

  ghost predicate Partition(m: Machine) {
    Distinct(m.ready) && Distinct(m.waiting) && Apart(m.ready, m.waiting)
  }

  ghost predicate Running(m: Machine) {
    m.cur < |m.ready| && Good(m.ready[m.cur]) && (Inside(m.ready[m.cur]) <==> m.ready[m.cur].id == m.owner)
  }

  /** Whenever a thread is about to run, or the scheduler has returned. */
  ghost predicate Inv(m: Machine) {
    && Partition(m) && Others(m) && InLine(m)
    && (Running(m) || (m.ready == [] && m.cur == 0))
    && (m.owner != NOBODY ==> Present(m.ready, m.owner))
    && (m.waiting != [] ==> m.owner != NOBODY)
  }

  /** After a turn that ends in the given way. */
  ghost predicate Turned(m: Machine, how: Outcome) {
    && Partition(m) && Others(m) && InLine(m) && m.cur < |m.ready| && m.ready[m.cur].id != NOBODY
    && match how
       case Yields =>
         && Running(m) && m.ready[m.cur].pc != Locked && (m.owner != NOBODY ==> Present(m.ready, m.owner))
         && (m.waiting != [] ==> m.owner != NOBODY)
       case Blocks =>
         && m.owner != NOBODY && Present(m.ready, m.owner) && m.owner != m.ready[m.cur].id
         && Good(m.ready[m.cur]) && m.ready[m.cur].kind == Bank && m.ready[m.cur].pc == Locked
       case Exits => m.owner != m.ready[m.cur].id && (m.owner != NOBODY ==> Present(m.ready, m.owner))
  }

  lemma {:induction false} StartInv(threads: seq<Thread>, balance: int)
    requires Created(threads)
    ensures Inv(Start(threads, balance))
  {
  }

  lemma {:induction false} FibonacciTurnGood(t: Thread)
    requires Good(t) && t.kind == Fibonacci
    ensures var u := FibonacciTurn(t);
            && 1 <= u.i <= u.arg && u.y == Fib(u.i) && (u.i < u.arg ==> Good(u)) && u.id == t.id && u.arg == t.arg
                && u.kind == t.kind
  {
  }

  lemma {:induction false} FactorialTurnGood(t: Thread)
    requires Good(t) && t.kind == Factorial
    ensures var u := FactorialTurn(t);
            && 1 <= u.i <= u.arg && u.x == Fact(u.i) && (u.i < u.arg ==> Good(u)) && u.id == t.id && u.arg == t.arg
                && u.kind == t.kind
  {
    assert Fact(0) == 1;
  }

  lemma {:induction false} LoopTurns(m: Machine)
    requires Inv(m) && m.cur < |m.ready| && m.ready[m.cur].kind != Bank
    ensures Turned(Turn(m), OutcomeOf(m))
  {
    var t, n := m.ready[m.cur], Turn(m);
    if t.kind == Fibonacci { FibonacciTurnGood(t); } else { FactorialTurnGood(t); }
    if m.owner != NOBODY {
      var k :| 0 <= k < |m.ready| && m.ready[k].id == m.owner;
      assert n.ready[k].id == m.owner;
    }
  }

  lemma {:induction false} BankTurns(m: Machine)
    requires Inv(m) && m.cur < |m.ready| && m.ready[m.cur].kind == Bank
    ensures Turned(Turn(m), OutcomeOf(m))
  {
    var t, n := m.ready[m.cur], Turn(m);
    assert n.ready[m.cur].id == t.id;
    if m.owner != NOBODY {
      var k :| 0 <= k < |m.ready| && m.ready[k].id == m.owner;
      assert n.ready[k].id == m.owner;
    }
  }

  /** The lock is free and somebody waits when a thread exits: the first in line takes its place, and the
      lock, and is the next to run. */
  lemma {:induction false} HandsOver(m: Machine)
    requires m.cur < |m.ready| && m.owner == NOBODY && m.waiting != []
    ensures var t := m.waiting[0];
            Schedule(m, Exits) == m.(owner := t.id, ready := m.ready[m.cur := t], waiting := m.waiting[1..],
                got := m.got + [t.id])
  {
    var t := m.waiting[0];
    var r := m.ready + [t];
    assert r[m.cur := r[|r| - 1]][..|r| - 1] == m.ready[m.cur := t];
  }

  lemma {:induction false} HandOverKeeps(m: Machine)
    requires Turned(m, Exits) && m.owner == NOBODY && m.waiting != []
    ensures Inv(Schedule(m, Exits))
  {
    HandsOver(m);
    assert Schedule(m, Exits).ready[m.cur].id == m.waiting[0].id;
  }

  /** Where thread k of the queue is once the running one has left. */
  function NewPlace(m: Machine, k: nat): nat {
    if k == |m.ready| - 1 then m.cur else k
  }

  /** The running thread is gone, and nobody else. */
  lemma {:induction false} Dropped(m: Machine)
    requires m.cur < |m.ready|
    ensures var d := DropRunning(m);
            && |d.ready| == |m.ready| - 1
            && (forall k :: 0 <= k < |m.ready| && k != m.cur ==>
                  NewPlace(m, k) < |d.ready| && d.ready[NewPlace(m, k)] == m.ready[k])
            && (forall j :: 0 <= j < |d.ready| ==> d.ready[j] == m.ready[if j == m.cur then |m.ready| - 1 else j])
  {
  }

  lemma {:induction false} DropKeeps(m: Machine)
    requires Partition(m) && Others(m) && InLine(m) && m.cur < |m.ready|
    requires m.owner != m.ready[m.cur].id && (m.owner != NOBODY ==> Present(m.ready, m.owner))
        && (m.waiting != [] ==> m.owner != NOBODY)
    ensures Inv(DropRunning(m))
  {
    Dropped(m);
    var d := DropRunning(m);
    if m.owner != NOBODY {
      var k :| 0 <= k < |m.ready| && m.ready[k].id == m.owner;
      assert d.ready[NewPlace(m, k)].id == m.owner;
    }
  }

  lemma {:induction false} QueuesUp(m: Machine, t: Thread)
    requires Inv(m) && m.owner != NOBODY && m.owner != t.id && Good(t) && t.kind == Bank && t.pc == Locked
    requires Apart(m.ready, [t]) && Apart(m.waiting, [t])
    ensures Inv(m.(waiting := m.waiting + [t]))
  {
    var n := m.(waiting := m.waiting + [t]);
    forall j, k | 0 <= j < |n.ready| && 0 <= k < |n.waiting| ensures n.ready[j].id != n.waiting[k].id {
      if k == |m.waiting| { assert [t][0] == t; }
    }
    forall j, k | 0 <= j < k < |n.waiting| ensures n.waiting[j].id != n.waiting[k].id {
      if k == |m.waiting| { assert [t][0] == t; }
    }
  }

  lemma {:induction false} BlockKeeps(m: Machine)
    requires Turned(m, Blocks)
    ensures Inv(Schedule(m, Blocks))
  {
    var t, d := m.ready[m.cur], DropRunning(m);
    DropKeeps(m);
    assert Apart(d.ready, [t]) by { Dropped(m); }
    QueuesUp(d, t);
    assert Schedule(m, Blocks) == d.(waiting := m.waiting + [t]);
  }

  lemma {:induction false} YieldKeeps(m: Machine)
    requires Turned(m, Yields)
    ensures Inv(m) && Inv(Schedule(m, Yields))
  {
    var n := Schedule(m, Yields);
    assert n == m.(cur := (m.cur + 1) % |m.ready|);
  }

  /** Every turn, with the scheduler's part in it, keeps the invariant. */
  lemma {:induction false} StepKeeps(m: Machine, signal: bool)
    requires Inv(m) && m.cur < |m.ready|
    ensures Inv(Step(m, signal))
  {
    if m.ready[m.cur].kind == Bank { BankTurns(m); } else { LoopTurns(m); }
    ScheduleKeeps(Turn(m), OutcomeOf(m));
    if OutcomeOf(m) == Yields { YieldKeeps(Turn(m)); }
  }

  lemma {:induction false} ScheduleKeeps(m: Machine, how: Outcome)
    requires Turned(m, how)
    ensures Inv(Schedule(m, how))
  {
    if how == Yields { YieldKeeps(m); }
    else if how == Blocks { BlockKeeps(m); }
    else if m.owner == NOBODY && m.waiting != [] { HandOverKeeps(m); }
    else { DropKeeps(m); }
  }

  lemma {:induction false} RunKeeps(m: Machine, run: seq<bool>)
    requires Inv(m) && Legal(m, run)
    ensures Inv(After(m, run))
    decreases |run|
  {
    if run != [] {
      StepKeeps(m, run[0]);
      RunKeeps(Step(m, run[0]), run[1..]);
    }
  }

  /** The queues and the lock, at every point of every run where a thread is about to run or the scheduler has
      returned: nobody is in two places, somebody waits only for a lock that a ready thread between lock and
      unlock owns, a thread that has just been given the lock is the one to run, and the scheduler has
      returned only if nobody waits. */
  lemma {:induction false} QueuesAndLock(threads: seq<Thread>, balance: int, run: seq<bool>)
    requires Created(threads) && Legal(Start(threads, balance), run)
    ensures var m := After(Start(threads, balance), run);
            && Distinct(m.ready + m.waiting)
            && (m.waiting != [] ==> exists k :: 0 <= k < |m.ready| && m.ready[k].id == m.owner && Inside(m.ready[k]))
            && (forall k :: 0 <= k < |m.ready| && m.ready[k].pc == Locked ==> k == m.cur && m.ready[k].id == m.owner)
            && (forall j, k :: 0 <= j < |m.ready| && 0 <= k < |m.ready| && Inside(m.ready[j]) && Inside(m.ready[k]) ==>
                j == k)
            && (m.ready == [] ==> m.waiting == [])
  {
    StartInv(threads, balance);
    RunKeeps(Start(threads, balance), run);
    var m := After(Start(threads, balance), run);
    if m.owner != NOBODY {
      var k :| 0 <= k < |m.ready| && m.ready[k].id == m.owner;
      assert Inside(m.ready[k]);
    }
  }
}
