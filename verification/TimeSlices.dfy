/** What a signal does, and what happens while none arrives. */
module TimeSlices {
  import opened GreenThreads
  import opened SchedulerInvariant
  import opened SchedulerRuns

  /** Whether the thread has anything left to do after this turn, and need not wait for the lock. */
  predicate GoesOn(t: Thread, owner: int) {
    if t.kind == Bank then t.pc != Step3 && (t.pc == Fresh ==> owner == NOBODY)
    else (if t.pc == Fresh then 1 else t.i + 1) < t.arg
  }

  /** The same threads in the same places. */
  ghost predicate SamePlaces(m: Machine, n: Machine) {
    && |n.ready| == |m.ready| && n.waiting == m.waiting
    && forall k :: 0 <= k < |m.ready| ==> n.ready[k].id == m.ready[k].id
  }

  lemma {:induction false} YieldsIff(m: Machine)
    requires Inv(m) && m.cur < |m.ready|
    ensures OutcomeOf(m) == Yields <==> GoesOn(m.ready[m.cur], m.owner)
  {
    var t := m.ready[m.cur];
    if t.kind != Bank && t.pc != Fresh { assert t.i < t.arg; }
  }

  lemma {:induction false} Steps(m: Machine)
    requires m.cur < |m.ready|
    ensures OutcomeOf(m) == Yields ==> Step(m, false) == Turn(m) && Step(m, true) == Schedule(Turn(m), Yields)
    ensures OutcomeOf(m) != Yields ==> Step(m, false) == Step(m, true)
  {
  }

  /** At a yield there is nobody to hand the lock to. */
  lemma {:induction false} Switched(m: Machine)
    requires Inv(m) && m.cur < |m.ready| && GoesOn(m.ready[m.cur], m.owner)
    ensures var n := Turn(m); |n.ready| > 0 && Schedule(n, Yields) == n.(cur := (n.cur + 1) % |n.ready|)
  {
    assert HandOff(Turn(m)) == Turn(m);
  }

  lemma {:induction false} Places(m: Machine, n: Machine, x: Machine)
    requires Local(m, n) && x == n.(cur := (n.cur + 1) % |n.ready|)
    ensures SamePlaces(m, n) && SamePlaces(m, x) && x.cur == if m.cur + 1 < |m.ready| then m.cur + 1 else 0
  {
    if m.cur + 1 == |m.ready| { assert (m.cur + 1) % |m.ready| == 0; }
  }

  /** A thread that goes on keeps running unless a signal is pending, and then the next one in the queue runs. A
      thread that does not go on gives way, signal or not. */
  lemma {:induction false} OnlySignalsSwitch(m: Machine)
    requires Inv(m) && m.cur < |m.ready|
    ensures GoesOn(m.ready[m.cur], m.owner) ==>
      && SamePlaces(m, Step(m, false)) && Step(m, false).cur == m.cur
      && SamePlaces(m, Step(m, true)) && Step(m, true).cur == (if m.cur + 1 < |m.ready| then m.cur + 1 else 0)
    ensures !GoesOn(m.ready[m.cur], m.owner) ==> Step(m, true) == Step(m, false)
  {
    YieldsIff(m);
    Steps(m);
    if GoesOn(m.ready[m.cur], m.owner) {
      Switched(m);
      TurnLocal(m);
      Places(m, Turn(m), Step(m, true));
    }
  }

  // ---------- runs without signals ----------

  function Silence(k: nat): (r: seq<bool>)
    ensures |r| == k && forall i :: 0 <= i < k ==> !r[i]
  {
    seq(k, _ => false)
  }

  lemma {:induction false} OneMore(m: Machine, j: nat)
    requires m.cur < |m.ready| && Legal(Step(m, false), Silence(j))
    ensures Legal(m, Silence(j + 1)) && After(m, Silence(j + 1)) == After(Step(m, false), Silence(j))
  {
    assert Silence(j + 1)[1..] == Silence(j);
  }

  /** The queue when the thread at the front has left: the last one fills the gap. */
  function Rest(threads: seq<Thread>): (r: seq<Thread>)
    requires threads != []
    ensures |r| == |threads| - 1
  {
    var n := |threads| - 1;
    if n == 0 then [] else [threads[n]] + threads[1..n]
  }

  /** What a thread prints when it finds the balance b and nobody interrupts it, and the balance it leaves. */
  function Alone(t: Thread, b: int): seq<Line> {
    if t.kind == Bank then
      [Acquired(t.id), Balance(t.id, b, BalanceAfter(t, b)), Released(t.id)]
    else Numbers(t.kind, t.id, if t.arg < 0 then 0 else t.arg)
  }

  function BalanceAfter(t: Thread, b: int): int {
    if t.kind == Bank && b + t.arg >= 0 then b + t.arg else b
  }

  /** What fresh threads print one after the other. */
  function Story(threads: seq<Thread>, b: int): seq<Line>
    decreases |threads|
  {
    if threads == [] then [] else Alone(threads[0], b) + Story(Rest(threads), BalanceAfter(threads[0], b))
  }

  /** Nobody has begun. */
  ghost predicate AllFresh(m: Machine) {
    && Inv(m) && m.cur == 0 && m.waiting == [] && m.owner == NOBODY && m.balance >= 0
    && forall k :: 0 <= k < |m.ready| ==> m.ready[k].pc == Fresh
  }

  /** The front thread is through. */
  ghost predicate FrontDone(m: Machine, n: Machine) {
    && m.ready != [] && AllFresh(n) && n.ready == Rest(m.ready)
    && n.log == m.log + Alone(m.ready[0], m.balance) && n.balance == BalanceAfter(m.ready[0], m.balance)
  }

  /** The loop thread at the front of m has done k rounds, and n is the machine. */
  ghost predicate Rounds(m: Machine, n: Machine, k: nat) {
    && AllFresh(m) && Inv(n) && m.ready != [] && |n.ready| == |m.ready|
    && n == m.(ready := m.ready[0 := n.ready[0]], log := m.log + Numbers(m.ready[0].kind, m.ready[0].id, k))
    && var t, u := m.ready[0], n.ready[0];
    u.id == t.id && u.kind == t.kind && u.arg == t.arg && Printed(u) == k < u.arg && (k > 0 ==> u.pc == Looping)
  }

  lemma {:induction false} OneRound(m: Machine, n: Machine, k: nat)
    requires Rounds(m, n, k) && m.ready[0].kind != Bank
    ensures if k + 1 < m.ready[0].arg then Rounds(m, Step(n, false), k + 1) else FrontDone(m, Step(n, false))
  {
    var t, v := n.ready[0], Turn(n);
    StepKeeps(n, false);
    RoundTurn(m, n, k);
    if k + 1 == t.arg { Leaves(m, v); }
  }

  lemma {:induction false} RoundTurn(m: Machine, n: Machine, k: nat)
    requires Rounds(m, n, k) && m.ready[0].kind != Bank
    ensures var t, u, v := m.ready[0], LoopTurn(n.ready[0]), Turn(n);
            && u.id == t.id && u.kind == t.kind && u.arg == t.arg && u.pc == Looping && u.i == k + 1
            && v == m.(ready := m.ready[0 := u], log := m.log + Numbers(t.kind, t.id, k + 1))
            && OutcomeOf(n) == if k + 1 < t.arg then Yields else Exits
  {
    var t := n.ready[0];
    if t.kind == Fibonacci { FibonacciTurnGood(t); } else { FactorialTurnGood(t); }
    NextNumber(t.kind, t.id, k);
    assert Turn(n).log == m.log + Numbers(t.kind, t.id, k) + [LoopLine(t)] == m.log + Numbers(t.kind, t.id, k + 1);
    assert m.ready[0 := t][0 := LoopTurn(t)] == m.ready[0 := LoopTurn(t)];
  }

  /** The front thread exits. */
  lemma {:induction false} Leaves(m: Machine, v: Machine)
    requires m.ready != [] && |v.ready| == |m.ready| && v.cur == 0 && v.waiting == []
    requires forall k :: 0 < k < |m.ready| ==> v.ready[k] == m.ready[k]
    ensures Schedule(v, Exits) == v.(ready := Rest(m.ready))
  {
    var n := |m.ready| - 1;
    if n > 0 {
      assert v.ready[0 := v.ready[n]][..n] == Rest(m.ready);
    } else {
      assert v.ready[..0] == Rest(m.ready);
    }
  }

  /** A bank operation that nobody interrupts. */
  lemma {:induction false} BankAlone(m: Machine)
    requires AllFresh(m) && m.ready != [] && m.ready[0].kind == Bank
    ensures var m1, m2 := Step(m, false), Step(Step(m, false), false);
            && m.cur < |m.ready| && m1.cur < |m1.ready| && m2.cur < |m2.ready|
            && FrontDone(m, Step(m2, false))
  {
    var t := m.ready[0];
    var b := BalanceAfter(t, m.balance);
    var m1, m2 := Step(m, false), Step(Step(m, false), false);
    StepKeeps(m, false);
    StepKeeps(m1, false);
    StepKeeps(m2, false);
    assert m1.ready[0] == t.(pc := Step2) && m1.log == m.log + [Acquired(t.id)];
    assert m2.ready[0] == t.(pc := Step3) && m2.log == m1.log + [Balance(t.id, m.balance, b)] && m2.balance == b;
    var v := Turn(m2);
    Leaves(m, v);
    assert Step(m2, false) == Schedule(v, Exits) && v.log == m2.log + [Released(t.id)];
    assert v.log == m.log + Alone(t, m.balance);
  }

  ghost predicate Told(m: Machine, n: Machine, story: seq<Line>) {
    n.ready == [] && n.log == m.log + story
  }

  /** When the front thread is through, the others go on. */
  lemma {:induction false} RestRuns(m: Machine, n: Machine) returns (j: nat)
    requires FrontDone(m, n)
    ensures Legal(n, Silence(j)) && Told(m, After(n, Silence(j)), Story(m.ready, m.balance))
    decreases |m.ready|, 0
  {
    j := StoryRuns(n);
    Continued(m, n, After(n, Silence(j)));
  }

  lemma {:induction false} Continued(m: Machine, n: Machine, end: Machine)
    requires FrontDone(m, n) && Told(n, end, Story(n.ready, n.balance))
    ensures Told(m, end, Story(m.ready, m.balance))
  {
    Regroup(m.log, Alone(m.ready[0], m.balance), Story(n.ready, n.balance));
  }

  lemma {:induction false} Regroup(a: seq<Line>, b: seq<Line>, c: seq<Line>)
    ensures a + b + c == a + (b + c)
  {
  }

  lemma {:induction false} LoopRuns(m: Machine, n: Machine, k: nat) returns (j: nat)
    requires Rounds(m, n, k) && m.ready[0].kind != Bank
    ensures Legal(n, Silence(j)) && Told(m, After(n, Silence(j)), Story(m.ready, m.balance))
    decreases |m.ready|, m.ready[0].arg - k
  {
    OneRound(m, n, k);
    if k + 1 < m.ready[0].arg { j := LoopRuns(m, Step(n, false), k + 1); } else { j := RestRuns(m, Step(n, false)); }
    OneMore(n, j);
    j := j + 1;
  }

  lemma {:induction false} BankRuns(m: Machine) returns (j: nat)
    requires AllFresh(m) && m.ready != [] && m.ready[0].kind == Bank
    ensures Legal(m, Silence(j)) && Told(m, After(m, Silence(j)), Story(m.ready, m.balance))
    decreases |m.ready|, 1
  {
    BankAlone(m);
    var m1, m2 := Step(m, false), Step(Step(m, false), false);
    j := RestRuns(m, Step(m2, false));
    OneMore(m2, j);
    OneMore(m1, j + 1);
    OneMore(m, j + 2);
    j := j + 3;
  }

  lemma {:induction false} StoryRuns(m: Machine) returns (j: nat)
    requires AllFresh(m)
    ensures Legal(m, Silence(j)) && Told(m, After(m, Silence(j)), Story(m.ready, m.balance))
    decreases |m.ready|, if m.ready == [] then 0 else if m.ready[0].arg < 0 then 2 else m.ready[0].arg + 2
  {
    if m.ready == [] {
      j := 0;
      assert m.log + [] == m.log;
    } else if m.ready[0].kind == Bank {
      j := BankRuns(m);
    } else {
      assert m.log + Numbers(m.ready[0].kind, m.ready[0].id, 0) == m.log;
      j := LoopRuns(m, m, 0);
    }
  }

  /** As long as no signal arrives the threads run one after the other, each from beginning to end: the first one
      created, then the last, the last but one, and so on to the second. */
  lemma {:induction false} WithoutSignals(threads: seq<Thread>, start: int) returns (j: nat)
    requires Created(threads) && start >= 0
    ensures Legal(Start(threads, start), Silence(j))
    ensures var m := After(Start(threads, start), Silence(j)); m.ready == [] && m.log == Story(threads, start)
  {
    StartInv(threads, start);
    j := StoryRuns(Start(threads, start));
    assert [] + Story(threads, start) == Story(threads, start);
  }
}
