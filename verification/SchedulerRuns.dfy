/** Whole runs of the scheduler: they end, their output does not depend on the signals, the bank lock is
    first come first served, and nobody is overtaken for long. */
module SchedulerRuns {
  import opened GreenThreads
  import opened SchedulerInvariant

  // ---------- every run ends ----------

  /** How many turns a thread has left. */
  function Rank(t: Thread): nat {
    if t.kind == Bank then
      match t.pc
      case Fresh => 4
      case Locked => 3
      case Step2 => 2
      case Step3 => 1
      case Looping => 0
    else
      var done := if t.pc == Fresh then 0 else t.i;
      if t.arg > done then t.arg - done else 0
  }

  function RankAll(ts: seq<Thread>): nat {
    if ts == [] then 0 else RankAll(ts[..|ts| - 1]) + Rank(ts[|ts| - 1])
  }

  function Left(m: Machine): nat {
    RankAll(m.ready) + RankAll(m.waiting)
  }

  lemma {:induction false} RankMoved(ts: seq<Thread>, k: nat, t: Thread)
    requires k < |ts|
    ensures RankAll(ts[k := t]) + Rank(ts[k]) == RankAll(ts) + Rank(t)
  {
    var n := |ts| - 1;
    if k == n {
      assert ts[k := t][..n] == ts[..n];
    } else {
      assert ts[k := t][..n] == ts[..n][k := t];
      RankMoved(ts[..n], k, t);
    }
  }

  lemma {:induction false} RankAppend(ts: seq<Thread>, t: Thread)
    ensures RankAll(ts + [t]) == RankAll(ts) + Rank(t)
  {
    assert (ts + [t])[..|ts|] == ts;
  }

  lemma {:induction false} RankTail(ts: seq<Thread>)
    requires ts != []
    ensures RankAll(ts) == Rank(ts[0]) + RankAll(ts[1..])
  {
    if |ts| == 1 {
      assert ts[..0] == [] && ts[1..] == [];
    } else {
      var n := |ts| - 1;
      RankTail(ts[..n]);
      assert ts[..n][1..] == ts[1..][..n - 1];
    }
  }

  lemma {:induction false} DropRank(m: Machine)
    requires m.cur < |m.ready|
    ensures RankAll(DropRunning(m).ready) + Rank(m.ready[m.cur]) == RankAll(m.ready)
  {
    var n := |m.ready| - 1;
    if m.cur < n {
      RankMoved(m.ready, m.cur, m.ready[n]);
      var r := m.ready[m.cur := m.ready[n]];
      assert RankAll(r) == RankAll(r[..n]) + Rank(r[n]);
    }
  }

  lemma {:induction false} HandOffRank(m: Machine)
    ensures Left(HandOff(m)) == Left(m)
  {
    if m.owner == NOBODY && m.waiting != [] {
      RankTail(m.waiting);
      RankAppend(m.ready, m.waiting[0]);
    }
  }

  /** The scheduler itself takes away only the rank of a thread that exits. */
  lemma {:induction false} ScheduleRank(m: Machine, how: Outcome)
    requires m.cur < |m.ready|
    ensures Left(Schedule(m, how)) == if how == Exits then Left(m) - Rank(m.ready[m.cur]) else Left(m)
  {
    HandOffRank(m);
    var h := HandOff(m);
    if how == Blocks {
      DropRank(h.(waiting := h.waiting + [h.ready[h.cur]]));
      RankAppend(h.waiting, h.ready[h.cur]);
    } else if how == Exits {
      DropRank(h);
    }
  }

  lemma {:induction false} LoopRank(t: Thread)
    requires Good(t) && t.kind != Bank
    ensures Rank(if t.kind == Fibonacci then FibonacciTurn(t) else FactorialTurn(t)) < Rank(t)
  {
  }

  lemma {:induction false} BankRank(m: Machine)
    requires m.cur < |m.ready| && m.ready[m.cur].kind == Bank && m.ready[m.cur].pc != Looping
    ensures var r := Rank(BankTurn(m).ready[m.cur]);
      r <= Rank(m.ready[m.cur]) && (OutcomeOf(m) != Exits ==> r < Rank(m.ready[m.cur]))
    ensures Rank(m.ready[m.cur]) > 0
  {
  }

  lemma {:induction false} TurnRank(m: Machine)
    requires Inv(m) && m.cur < |m.ready|
    ensures Left(Turn(m)) <= Left(m) && (OutcomeOf(m) != Exits ==> Left(Turn(m)) < Left(m))
    ensures OutcomeOf(m) == Exits ==> Left(Turn(m)) - Rank(Turn(m).ready[m.cur]) < Left(m)
  {
    var t, n := m.ready[m.cur], Turn(m);
    TurnLocal(m);
    if t.kind == Bank { BankRank(m); } else { LoopRank(t); }
    Replaced(m, n);
  }

  lemma {:induction false} Replaced(m: Machine, n: Machine)
    requires m.cur < |m.ready| == |n.ready| && n.waiting == m.waiting
    requires forall k :: 0 <= k < |m.ready| && k != m.cur ==> n.ready[k] == m.ready[k]
    ensures Left(n) + Rank(m.ready[m.cur]) == Left(m) + Rank(n.ready[m.cur])
  {
    assert n.ready == m.ready[m.cur := n.ready[m.cur]];
    RankMoved(m.ready, m.cur, n.ready[m.cur]);
  }

  /** The turn changes only the running thread, and that one keeps its name. */
  lemma {:induction false} TurnLocal(m: Machine)
    requires m.cur < |m.ready|
    ensures var n := Turn(m);
            && |n.ready| == |m.ready| && n.cur == m.cur && n.waiting == m.waiting
                && n.ready[m.cur].id == m.ready[m.cur].id
            && forall k :: 0 <= k < |m.ready| && k != m.cur ==> n.ready[k] == m.ready[k]
  {
  }

  lemma {:induction false} StepDrops(m: Machine, signal: bool)
    requires Inv(m) && m.cur < |m.ready|
    ensures Left(Step(m, signal)) < Left(m)
  {
    TurnRank(m);
    ScheduleRank(Turn(m), OutcomeOf(m));
  }

  lemma {:induction false} RunDrops(m: Machine, run: seq<bool>)
    requires Inv(m) && Legal(m, run)
    ensures |run| + Left(After(m, run)) <= Left(m)
    decreases |run|
  {
    if run != [] {
      StepDrops(m, run[0]);
      StepKeeps(m, run[0]);
      RunDrops(Step(m, run[0]), run[1..]);
    }
  }

  lemma {:induction false} Longer(m: Machine, run: seq<bool>, signal: bool)
    requires Legal(m, run) && After(m, run).cur < |After(m, run).ready|
    ensures Legal(m, run + [signal]) && After(m, run + [signal]) == Step(After(m, run), signal)
    decreases |run|
  {
    if run != [] {
      assert (run + [signal])[1..] == run[1..] + [signal];
      Longer(Step(m, run[0]), run[1..], signal);
    }
  }

  /** After k turns under these signals the machine m0 is m. */
  ghost predicate Reached(m0: Machine, signals: seq<bool>, k: nat, m: Machine) {
    k <= |signals| && Inv(m) && Legal(m0, signals[..k]) && m == After(m0, signals[..k])
  }

  lemma {:induction false} ReachedOn(m0: Machine, signals: seq<bool>, k: nat, m: Machine)
    requires Reached(m0, signals, k, m) && k < |signals| && m.ready != []
    ensures m.cur < |m.ready| && Reached(m0, signals, k + 1, Step(m, signals[k]))
  {
    StepKeeps(m, signals[k]);
    Longer(m0, signals[..k], signals[k]);
    assert signals[..k + 1] == signals[..k] + [signals[k]];
  }

  /** Whatever signals arrive, the threads take at most as many turns as their arguments add up to, counting
      four for a bank operation; and a run goes on until no thread is left in either queue. */
  lemma {:induction false} EveryRunEnds(threads: seq<Thread>, balance: int, run: seq<bool>, signal: bool)
    requires Created(threads) && Legal(Start(threads, balance), run)
    ensures |run| <= RankAll(threads)
    ensures var m := After(Start(threads, balance), run);
            (m.ready == [] && m.waiting == []) || Legal(Start(threads, balance), run + [signal])
  {
    StartInv(threads, balance);
    RunDrops(Start(threads, balance), run);
    RunKeeps(Start(threads, balance), run);
    if After(Start(threads, balance), run).ready != [] { Longer(Start(threads, balance), run, signal); }
  }

  // ---------- the output of one thread ----------

  function Output(log: seq<Line>, id: int): seq<Line> {
    if log == [] then []
    else Output(log[..|log| - 1], id) + if log[|log| - 1].id == id then [log[|log| - 1]] else []
  }

  /** The first n numbers of a loop. */
  function Numbers(kind: Kind, id: int, n: nat): seq<Line> {
    seq(n, k requires 0 <= k < n => Value(id, if kind == Fibonacci then Fib(k + 1) else Fact(k + 1)))
  }

  /** The first n lines of a thread, as it prints them when it is alone. */
  ghost predicate Lines(o: Thread, out: seq<Line>, n: nat) {
    if o.kind == Bank then
      && |out| == n <= 3 && (n >= 1 ==> out[0] == Acquired(o.id)) && (n >= 2 ==> out[1].Balance? && out[1].id == o.id)
      && (n >= 3 ==> out[2] == Released(o.id))
    else out == Numbers(o.kind, o.id, n)
  }

  ghost predicate Begins(o: Thread, out: seq<Line>) {
    exists n: nat :: n <= Full(o) && Lines(o, out, n)
  }

  function Printed(t: Thread): nat {
    if t.kind == Bank then (if t.pc == Step2 then 1 else if t.pc == Step3 then 2 else 0)
    else if t.pc == Fresh || t.i < 0 then 0 else t.i
  }

  function Full(o: Thread): nat {
    if o.kind == Bank then 3 else if o.arg < 0 then 0 else o.arg
  }

  /** A thread that was created as o, if it is t now, has printed what it should have. */
  ghost predicate Says(t: Thread, o: Thread, out: seq<Line>) {
    t.id == o.id ==> t.kind == o.kind && t.arg == o.arg && Lines(o, out, Printed(t))
  }

  /** The thread created as o has printed the first lines of its output, all of them if it has exited. */
  ghost predicate Told(m: Machine, o: Thread) {
    var out := Output(m.log, o.id);
    && (forall k :: 0 <= k < |m.ready| ==> Says(m.ready[k], o, out))
    && (forall k :: 0 <= k < |m.waiting| ==> Says(m.waiting[k], o, out))
    && (!Present(m.ready, o.id) && !Present(m.waiting, o.id) ==> Lines(o, out, Full(o)))
  }

  /** The same between the turn of the running thread and the scheduler. */
  ghost predicate ToldMidway(m: Machine, how: Outcome, o: Thread)
    requires m.cur < |m.ready|
  {
    var out := Output(m.log, o.id);
    && (forall k :: 0 <= k < |m.ready| && (how == Exits ==> k != m.cur) ==> Says(m.ready[k], o, out))
    && (forall k :: 0 <= k < |m.waiting| ==> Says(m.waiting[k], o, out))
    && (!Present(m.ready, o.id) && !Present(m.waiting, o.id) ==> Lines(o, out, Full(o)))
    && (how == Exits && m.ready[m.cur].id == o.id ==> Lines(o, out, Full(o)))
  }

  lemma {:induction false} OutputAppend(log: seq<Line>, l: Line, id: int)
    ensures Output(log + [l], id) == Output(log, id) + if l.id == id then [l] else []
  {
    assert (log + [l])[..|log|] == log;
  }

  lemma {:induction false} NextNumber(kind: Kind, id: int, n: nat)
    ensures Numbers(kind, id, n + 1) == Numbers(kind, id, n)
        + [Value(id, if kind == Fibonacci then Fib(n + 1) else Fact(n + 1))]
  {
  }

  /** The line of a turn is the next one of its thread, and the last one if the thread exits. */
  lemma {:induction false} LoopSpeaks(m: Machine, o: Thread)
    requires Inv(m) && m.cur < |m.ready| && m.ready[m.cur].kind != Bank && m.ready[m.cur].id == o.id
        && Says(m.ready[m.cur], o, Output(m.log, o.id))
    ensures Spoken(Turn(m), m.cur, OutcomeOf(m), o)
  {
    var t := m.ready[m.cur];
    OutputAppend(m.log, LoopLine(t), o.id);
    NextLine(t, o, Output(m.log, o.id));
  }

  function LoopTurn(t: Thread): Thread {
    if t.kind == Fibonacci then FibonacciTurn(t) else FactorialTurn(t)
  }

  function LoopLine(t: Thread): Line {
    Value(t.id, if t.kind == Fibonacci then LoopTurn(t).y else LoopTurn(t).x)
  }

  lemma {:induction false} NextLine(t: Thread, o: Thread, out: seq<Line>)
    requires Good(t) && t.kind != Bank && t.id == o.id && Says(t, o, out)
    ensures if LoopTurn(t).i == t.arg then Lines(o, out + [LoopLine(t)], Full(o))
        else Says(LoopTurn(t), o, out + [LoopLine(t)])
  {
    if t.kind == Fibonacci { FibonacciTurnGood(t); } else { FactorialTurnGood(t); }
    NextNumber(t.kind, t.id, Printed(t));
  }

  /** What a turn of a bank operation prints. */
  function BankLines(m: Machine): seq<Line>
    requires m.cur < |m.ready|
  {
    var t := m.ready[m.cur];
    if t.pc == Fresh then (if m.owner == NOBODY then [Acquired(t.id)] else [])
    else if t.pc == Step2 then [Balance(t.id, m.balance, Updated(m.balance, t.arg))]
    else if t.pc == Step3 then [Released(t.id)]
    else [Acquired(t.id)]
  }

  lemma {:induction false} BankPrints(m: Machine)
    requires m.cur < |m.ready|
    ensures BankTurn(m).log == m.log + BankLines(m)
  {
  }

  lemma {:induction false} BankNext(t: Thread, o: Thread, out: seq<Line>, l: Line)
    requires t.kind == Bank && Good(t) && t.id == o.id == l.id && Says(t, o, out)
    ensures t.pc == Step3 && l.Released? ==> Lines(o, out + [l], 3)
    ensures t.pc == Step2 && l.Balance? ==> Says(t.(pc := Step3), o, out + [l])
    ensures (t.pc == Fresh || t.pc == Locked) && l.Acquired? ==> Says(t.(pc := Step2), o, out + [l])
    ensures t.pc == Fresh ==> Says(t.(pc := Locked), o, out)
  {
  }

  lemma {:induction false} BankSpeaks(m: Machine, o: Thread)
    requires Inv(m) && m.cur < |m.ready| && m.ready[m.cur].kind == Bank && m.ready[m.cur].id == o.id
        && Says(m.ready[m.cur], o, Output(m.log, o.id))
    ensures Spoken(BankTurn(m), m.cur, OutcomeOf(m), o)
  {
    BankPrints(m);
    var t, ls, out := m.ready[m.cur], BankLines(m), Output(m.log, o.id);
    if ls == [] {
      assert m.log + [] == m.log;
      BankNext(t, o, out, Acquired(t.id));
    } else {
      OutputAppend(m.log, ls[0], o.id);
      assert m.log + ls == m.log + [ls[0]];
      BankNext(t, o, out, ls[0]);
    }
    BankMoves(m);
  }

  lemma {:induction false} BankMoves(m: Machine)
    requires m.cur < |m.ready| && m.ready[m.cur].kind == Bank && m.ready[m.cur].pc != Looping
    ensures var t := m.ready[m.cur];
            && |BankTurn(m).ready| == |m.ready|
            && BankTurn(m).ready[m.cur] ==
               if t.pc == Fresh && m.owner != NOBODY then t.(pc := Locked)
               else if t.pc == Step2 then t.(pc := Step3) else if t.pc == Step3 then t else t.(pc := Step2)
  {
  }

  ghost predicate Spoken(n: Machine, cur: nat, how: Outcome, o: Thread) {
    var out := Output(n.log, o.id);
    if how == Exits then Lines(o, out, Full(o)) else cur < |n.ready| && Says(n.ready[cur], o, out)
  }

  lemma {:induction false} OthersSilent(m: Machine, o: Thread)
    requires m.cur < |m.ready| && m.ready[m.cur].id != o.id
    ensures Output(Turn(m).log, o.id) == Output(m.log, o.id)
  {
    var n := Turn(m);
    if n.log != m.log {
      var l := n.log[|m.log|];
      assert n.log == m.log + [l];
      OutputAppend(m.log, l, o.id);
    }
  }

  lemma {:induction false} TurnTells(m: Machine, o: Thread)
    requires Inv(m) && m.cur < |m.ready| && Told(m, o)
    ensures ToldMidway(Turn(m), OutcomeOf(m), o)
  {
    TurnLocal(m);
    if m.ready[m.cur].id == o.id {
      if m.ready[m.cur].kind == Bank { BankSpeaks(m, o); } else { LoopSpeaks(m, o); }
      SpeakerTold(m, Turn(m), OutcomeOf(m), o);
    } else {
      OthersSilent(m, o);
      SilentTold(m, Turn(m), OutcomeOf(m), o);
    }
  }

  ghost predicate Local(m: Machine, n: Machine) {
    && m.cur < |m.ready| && |n.ready| == |m.ready| && n.cur == m.cur && n.waiting == m.waiting
        && n.ready[m.cur].id == m.ready[m.cur].id
    && forall k :: 0 <= k < |m.ready| && k != m.cur ==> n.ready[k] == m.ready[k]
  }

  lemma {:induction false} SpeakerTold(m: Machine, n: Machine, how: Outcome, o: Thread)
    requires Partition(m) && Local(m, n) && Told(m, o) && m.ready[m.cur].id == o.id && Spoken(n, m.cur, how, o)
    ensures ToldMidway(n, how, o)
  {
    assert n.ready[n.cur].id == o.id;
  }

  lemma {:induction false} SilentTold(m: Machine, n: Machine, how: Outcome, o: Thread)
    requires Local(m, n) && Told(m, o) && m.ready[m.cur].id != o.id && Output(n.log, o.id) == Output(m.log, o.id)
    ensures ToldMidway(n, how, o)
  {
    if Present(m.ready, o.id) {
      var k :| 0 <= k < |m.ready| && m.ready[k].id == o.id;
      assert n.ready[k].id == o.id;
    }
  }

  lemma {:induction false} ScheduleTells(m: Machine, how: Outcome, o: Thread)
    requires Turned(m, how) && ToldMidway(m, how, o)
    ensures Told(Schedule(m, how), o)
  {
    if how == Yields {
      assert Schedule(m, how) == m.(cur := (m.cur + 1) % |m.ready|);
    } else if how == Exits && m.owner == NOBODY && m.waiting != [] {
      HandOverTells(m, o);
    } else if how == Exits {
      DropTells(m, o);
    } else {
      BlockTells(m, o);
    }
  }

  lemma {:induction false} HandOverTells(m: Machine, o: Thread)
    requires Turned(m, Exits) && ToldMidway(m, Exits, o) && m.owner == NOBODY && m.waiting != []
    ensures Told(Schedule(m, Exits), o)
  {
    HandsOver(m);
    var n := Schedule(m, Exits);
    assert n.ready[m.cur] == m.waiting[0];
    if Present(m.ready, o.id) && m.ready[m.cur].id != o.id {
      var k :| 0 <= k < |m.ready| && m.ready[k].id == o.id;
      assert n.ready[k].id == o.id;
    } else if Present(m.waiting, o.id) {
      var k :| 0 <= k < |m.waiting| && m.waiting[k].id == o.id;
      if k > 0 { assert n.waiting[k - 1].id == o.id; }
    }
  }

  lemma {:induction false} DropTells(m: Machine, o: Thread)
    requires m.cur < |m.ready| && ToldMidway(m, Exits, o)
    ensures Told(DropRunning(m), o)
  {
    Dropped(m);
    var d := DropRunning(m);
    if Present(m.ready, o.id) && m.ready[m.cur].id != o.id {
      var k :| 0 <= k < |m.ready| && m.ready[k].id == o.id;
      assert d.ready[NewPlace(m, k)].id == o.id;
    }
  }

  lemma {:induction false} BlockTells(m: Machine, o: Thread)
    requires Turned(m, Blocks) && ToldMidway(m, Blocks, o)
    ensures Told(Schedule(m, Blocks), o)
  {
    var t := m.ready[m.cur];
    var n := DropRunning(m).(waiting := m.waiting + [t]);
    assert Schedule(m, Blocks) == n;
    Dropped(m);
    Queued(m, n, t, o);
  }

  lemma {:induction false} Queued(m: Machine, n: Machine, t: Thread, o: Thread)
    requires m.cur < |m.ready| && t == m.ready[m.cur] && ToldMidway(m, Blocks, o) && n.log == m.log
    requires n.waiting == m.waiting + [t] && |n.ready| == |m.ready| - 1
    requires forall k :: 0 <= k < |m.ready| && k != m.cur ==>
      NewPlace(m, k) < |n.ready| && n.ready[NewPlace(m, k)] == m.ready[k]
    requires forall j :: 0 <= j < |n.ready| ==> n.ready[j] == m.ready[if j == m.cur then |m.ready| - 1 else j]
    ensures Told(n, o)
  {
    assert n.waiting[|m.waiting|] == t;
    if Present(m.ready, o.id) && t.id != o.id {
      var k :| 0 <= k < |m.ready| && m.ready[k].id == o.id;
      assert n.ready[NewPlace(m, k)].id == o.id;
    } else if Present(m.waiting, o.id) {
      var k :| 0 <= k < |m.waiting| && m.waiting[k].id == o.id;
      assert n.waiting[k].id == o.id;
    }
  }

  lemma {:induction false} StepTells(m: Machine, signal: bool, o: Thread)
    requires Inv(m) && m.cur < |m.ready| && Told(m, o)
    ensures Told(Step(m, signal), o)
  {
    TurnTells(m, o);
    if m.ready[m.cur].kind == Bank { BankTurns(m); } else { LoopTurns(m); }
    if OutcomeOf(m) != Yields || signal { ScheduleTells(Turn(m), OutcomeOf(m), o); }
  }

  lemma {:induction false} RunTells(m: Machine, run: seq<bool>, o: Thread)
    requires Inv(m) && Legal(m, run) && Told(m, o)
    ensures Told(After(m, run), o)
    decreases |run|
  {
    if run != [] {
      StepTells(m, run[0], o);
      StepKeeps(m, run[0]);
      RunTells(Step(m, run[0]), run[1..], o);
    }
  }

  /** Schedule independence: at every point of every run a thread has printed a beginning of the output it
      has on its own, and when the scheduler returns it has printed all of it: a Fibonacci thread the
      numbers fib(1) to fib(arg), a factorial thread 1! to arg!, a bank operation its three lines. */
  lemma {:induction false} ScheduleIndependence(threads: seq<Thread>, balance: int, run: seq<bool>, o: Thread)
    requires Created(threads) && Legal(Start(threads, balance), run) && o in threads
    ensures Begins(o, Output(After(Start(threads, balance), run).log, o.id))
    ensures After(Start(threads, balance), run).ready == [] ==>
        Lines(o, Output(After(Start(threads, balance), run).log, o.id), Full(o))
  {
    var s := Start(threads, balance);
    StartInv(threads, balance);
    TellsAtStart(threads, balance, o);
    RunTells(s, run, o);
    RunKeeps(s, run);
    SaysWhere(After(s, run), o);
  }

  /** No thread has printed anything yet. */
  lemma {:induction false} TellsAtStart(threads: seq<Thread>, balance: int, o: Thread)
    requires Created(threads) && o in threads
    ensures Told(Start(threads, balance), o)
  {
    var s := Start(threads, balance);
    var j :| 0 <= j < |threads| && threads[j] == o;
    assert s.ready[j].id == o.id;
    forall k | 0 <= k < |s.ready| ensures Says(s.ready[k], o, []) {
      if k != j { assert s.ready[k].id != o.id; }
    }
  }

  lemma {:induction false} SaysWhere(m: Machine, o: Thread)
    requires Inv(m) && Told(m, o)
    ensures Begins(o, Output(m.log, o.id))
    ensures m.ready == [] ==> Lines(o, Output(m.log, o.id), Full(o))
  {
    var out := Output(m.log, o.id);
    if k :| 0 <= k < |m.ready| && m.ready[k].id == o.id {
      assert Good(m.ready[k]);
      SaysHow(m.ready[k], o, out);
    } else if k :| 0 <= k < |m.waiting| && m.waiting[k].id == o.id {
      SaysHow(m.waiting[k], o, out);
    } else {
      assert Lines(o, out, Full(o));
    }
  }

  lemma {:induction false} SaysHow(t: Thread, o: Thread, out: seq<Line>)
    requires Good(t) && t.id == o.id && Says(t, o, out)
    ensures 0 <= Printed(t) <= Full(o) && Lines(o, out, Printed(t))
  {
    if t.kind == Bank { assert Printed(t) <= 3; }
    else { assert Printed(t) <= o.arg; }
  }
}
