/** The balance of the bank over whole runs, as the terminal shows it and as it is in the end. */
module BankBalance {
  import opened GreenThreads
  import opened Occurrences
  import opened SchedulerInvariant
  import opened SchedulerRuns
  import opened BankLock

  /** The balance b after an update by `amount`: it never becomes negative. */
  function Guarded(b: int, amount: int): int {
    if b + amount >= 0 then b + amount else b
  }

  /** The second turn of a bank operation adds its argument to the balance, unless that would make it negative,
      and prints the balance before and after. */
  lemma {:induction false} UpdateTurn(m: Machine, signal: bool)
    requires m.cur < |m.ready| && m.balance >= 0 && m.ready[m.cur].kind == Bank && m.ready[m.cur].pc == Step2
    ensures var t, n := m.ready[m.cur], Step(m, signal);
            && n.balance == (if m.balance + t.arg >= 0 then m.balance + t.arg else m.balance)
            && n.log == m.log + [Balance(t.id, m.balance, n.balance)]
  {
  }

  /** No other turn changes it. */
  lemma {:induction false} OtherTurns(m: Machine, signal: bool)
    requires m.cur < |m.ready| && !(m.ready[m.cur].kind == Bank && m.ready[m.cur].pc == Step2)
    requires m.ready[m.cur].pc != Looping || m.ready[m.cur].kind != Bank
    ensures Step(m, signal).balance == m.balance && Statement(Step(m, signal).log) == Statement(m.log)
  {
    var n := Turn(m);
    assert Step(m, signal).log == n.log && Step(m, signal).balance == n.balance;
    if n.log != m.log {
      var l := n.log[|m.log|];
      assert n.log == m.log + [l];
      StatementAppend(m.log, l);
    }
  }

  // ---------- the statement ----------

  /** The lines about the balance, in order. */
  function Statement(log: seq<Line>): (r: seq<Line>)
    ensures forall j :: 0 <= j < |r| ==> r[j].Balance?
  {
    if log == [] then []
    else Statement(log[..|log| - 1]) + if log[|log| - 1].Balance? then [log[|log| - 1]] else []
  }

  lemma {:induction false} StatementAppend(log: seq<Line>, l: Line)
    ensures Statement(log + [l]) == Statement(log) + if l.Balance? then [l] else []
  {
    assert (log + [l])[..|log|] == log;
  }

  /** What the balance is after the first k lines of a statement. */
  function Reads(start: int, lines: seq<Line>, k: nat): int
    requires k <= |lines| && forall j :: 0 <= j < |lines| ==> lines[j].Balance?
  {
    if k == 0 then start else lines[k - 1].after
  }

  /** The statement tells of the updates made: each line goes on from the balance that the one before ends with,
      and adds its amount unless that would be too much. */
  ghost predicate Booked(m: Machine, start: int) {
    var lines := Statement(m.log);
    && |lines| == |m.applied| && m.balance == Reads(start, lines, |lines|) >= 0
    && forall j :: 0 <= j < |lines| ==>
      lines[j] == Balance(m.applied[j].id, Reads(start, lines, j), Guarded(Reads(start, lines, j), m.applied[j].amount))
  }

  lemma {:induction false} BooksLine(m: Machine, n: Machine, start: int, v: Move)
    requires Booked(m, start) && n.applied == m.applied + [v] && n.balance == Guarded(m.balance, v.amount)
    requires n.log == m.log + [Balance(v.id, m.balance, n.balance)]
    ensures Booked(n, start)
  {
    var lines, l := Statement(m.log), Balance(v.id, m.balance, n.balance);
    StatementAppend(m.log, l);
    var lines' := lines + [l];
    forall j | 0 <= j < |lines'| ensures lines'[j] ==
      Balance(n.applied[j].id, Reads(start, lines', j), Guarded(Reads(start, lines', j), n.applied[j].amount)) {
      assert Reads(start, lines', j) == Reads(start, lines, j);
    }
  }

  lemma {:induction false} StepBooks(m: Machine, signal: bool, start: int)
    requires Inv(m) && m.cur < |m.ready| && Booked(m, start)
    ensures Booked(Step(m, signal), start)
  {
    var t, n := m.ready[m.cur], Step(m, signal);
    if t.kind == Bank && t.pc == Step2 {
      UpdateTurn(m, signal);
      BooksLine(m, n, start, Move(t.id, t.arg));
    } else {
      OtherTurns(m, signal);
      assert n.applied == m.applied;
    }
  }

  lemma {:induction false} RunBooks(m: Machine, run: seq<bool>, start: int)
    requires Inv(m) && Legal(m, run) && Booked(m, start)
    ensures Booked(After(m, run), start)
    decreases |run|
  {
    if run != [] {
      StepBooks(m, run[0], start);
      StepKeeps(m, run[0]);
      RunBooks(Step(m, run[0]), run[1..], start);
    }
  }

  /** At every point of every run the lines about the balance form one account: each goes on from where the one
      before has ended, the first from the balance at the start, and the last ends with the balance there is; and
      each changes it by the argument that its thread was created with, or by nothing if that would overdraw it. */
  lemma {:induction false} OneAccount(threads: seq<Thread>, start: int, run: seq<bool>)
    requires Created(threads) && start >= 0 && Legal(Start(threads, start), run)
    ensures var m := After(Start(threads, start), run);
            var lines := Statement(m.log);
            && m.balance == (if lines == [] then start else lines[|lines| - 1].after)
            && (forall j :: 0 <= j < |lines| ==> lines[j].before == if j == 0 then start else lines[j - 1].after)
            && (forall j, o :: 0 <= j < |lines| && o in threads && o.id == lines[j].id ==>
              var b := lines[j].before; lines[j].after == if b + o.arg >= 0 then b + o.arg else b)
  {
    var m := After(Start(threads, start), run);
    StartInv(threads, start);
    RunBooks(Start(threads, start), run, start);
    forall j, o | 0 <= j < |m.applied| && o in threads && o.id == m.applied[j].id ensures m.applied[j].amount == o.arg {
      PaysOwnAmount(threads, start, run, o);
      assert m.applied[j] in m.applied;
    }
  }

  // ---------- the balance in the end ----------

  /** The sum of what g makes of the amounts, and of the arguments of the bank threads. */
  function SumOf(moves: seq<Move>, g: int -> int): int {
    if moves == [] then 0 else SumOf(moves[..|moves| - 1], g) + g(moves[|moves| - 1].amount)
  }

  function BankSum(threads: seq<Thread>, g: int -> int): int {
    if threads == [] then 0
    else
      var o := threads[|threads| - 1];
      BankSum(threads[..|threads| - 1], g) + if o.kind == Bank then g(o.arg) else 0
  }

  function Whole(amount: int): int {
    amount
  }

  /** What an amount takes away. */
  function Debit(amount: int): int {
    if amount < 0 then amount else 0
  }

  lemma {:induction false} SumConcat(a: seq<Move>, b: seq<Move>, g: int -> int)
    ensures SumOf(a + b, g) == SumOf(a, g) + SumOf(b, g)
    decreases |b|
  {
    if b == [] {
      assert a + b == a;
    } else {
      assert (a + b)[..|a + b| - 1] == a + b[..|b| - 1];
      SumConcat(a, b[..|b| - 1], g);
    }
  }

  lemma {:induction false} SumWithout(moves: seq<Move>, j: nat, g: int -> int)
    requires j < |moves|
    ensures SumOf(moves, g) == SumOf(moves[..j] + moves[j + 1..], g) + g(moves[j].amount)
  {
    var v := [moves[j]];
    assert moves == moves[..j] + v + moves[j + 1..];
    SumConcat(moves[..j] + v, moves[j + 1..], g);
    SumConcat(moves[..j], v, g);
    SumConcat(moves[..j], moves[j + 1..], g);
    assert v[..0] == [];
  }

  lemma {:induction false} TimesWithout(moves: seq<Move>, j: nat, id: int)
    requires j < |moves|
    ensures Times(MoveIds(moves), id) ==
      Times(MoveIds(moves[..j] + moves[j + 1..]), id) + if moves[j].id == id then 1 else 0
  {
    var a, v, b := MoveIds(moves[..j]), [moves[j].id], MoveIds(moves[j + 1..]);
    assert MoveIds(moves) == a + v + b && MoveIds(moves[..j] + moves[j + 1..]) == a + b;
    TimesConcat(a + v, b, id);
    TimesConcat(a, v, id);
    TimesConcat(a, b, id);
    assert v[..0] == [];
  }

  /** The updates are one for each bank thread, by its argument. */
  ghost predicate Matches(threads: seq<Thread>, moves: seq<Move>) {
    && (forall k :: 0 <= k < |threads| ==>
          Times(MoveIds(moves), threads[k].id) == if threads[k].kind == Bank then 1 else 0)
    && (forall j :: 0 <= j < |moves| ==> Payer(threads, moves[j]))
  }

  ghost predicate Payer(threads: seq<Thread>, v: Move) {
    exists k :: 0 <= k < |threads| && threads[k].id == v.id && threads[k].arg == v.amount
  }

  ghost predicate DistinctIds(threads: seq<Thread>) {
    forall j, k :: 0 <= j < k < |threads| ==> threads[j].id != threads[k].id
  }

  lemma {:induction false} SumMatches(threads: seq<Thread>, moves: seq<Move>, g: int -> int)
    requires DistinctIds(threads) && Matches(threads, moves)
    ensures SumOf(moves, g) == BankSum(threads, g)
    decreases |threads|
  {
    if threads != [] {
      var n := |threads| - 1;
      var o := threads[n];
      TimesIn(MoveIds(moves), o.id);
      if o.kind == Bank {
        var j :| 0 <= j < |moves| && MoveIds(moves)[j] == o.id;
        var rest := moves[..j] + moves[j + 1..];
        SumWithout(moves, j, g);
        MatchesWithout(threads, moves, j);
        SumMatches(threads[..n], rest, g);
      } else {
        MatchesFewer(threads, moves);
        SumMatches(threads[..n], moves, g);
      }
    }
  }

  lemma {:induction false} MatchesFewer(threads: seq<Thread>, moves: seq<Move>)
    requires Matches(threads, moves) && threads != [] && threads[|threads| - 1].kind != Bank
    ensures Matches(threads[..|threads| - 1], moves)
  {
    var n := |threads| - 1;
    TimesIn(MoveIds(moves), threads[n].id);
    forall j | 0 <= j < |moves| ensures Payer(threads[..n], moves[j]) {
      assert MoveIds(moves)[j] == moves[j].id;
      PayerBefore(threads, moves[j]);
    }
  }

  lemma {:induction false} MatchesWithout(threads: seq<Thread>, moves: seq<Move>, j: nat)
    requires DistinctIds(threads) && Matches(threads, moves) && threads != [] && j < |moves|
    requires threads[|threads| - 1].kind == Bank && moves[j].id == threads[|threads| - 1].id
    ensures Matches(threads[..|threads| - 1], moves[..j] + moves[j + 1..])
    ensures moves[j].amount == threads[|threads| - 1].arg
  {
    var n, rest := |threads| - 1, moves[..j] + moves[j + 1..];
    var last :| 0 <= last < |threads| && threads[last].id == moves[j].id && threads[last].arg == moves[j].amount;
    assert last == n;
    forall k | 0 <= k < n ensures Times(MoveIds(rest), threads[..n][k].id) ==
      if threads[..n][k].kind == Bank then 1 else 0 { TimesWithout(moves, j, threads[k].id); }
    TimesWithout(moves, j, threads[n].id);
    TimesIn(MoveIds(rest), threads[n].id);
    forall i | 0 <= i < |rest| ensures Payer(threads[..n], rest[i]) {
      assert rest[i] == moves[if i < j then i else i + 1] && MoveIds(rest)[i] == rest[i].id;
      PayerBefore(threads, rest[i]);
    }
  }

  lemma {:induction false} PayerBefore(threads: seq<Thread>, v: Move)
    requires threads != [] && Payer(threads, v) && threads[|threads| - 1].id != v.id
    ensures Payer(threads[..|threads| - 1], v)
  {
    var k :| 0 <= k < |threads| && threads[k].id == v.id && threads[k].arg == v.amount;
    assert threads[..|threads| - 1][k] == threads[k];
  }

  /** When the scheduler returns, the updates are one for each bank thread. */
  lemma {:induction false} AllMatched(threads: seq<Thread>, start: int, run: seq<bool>)
    requires Created(threads) && Legal(Start(threads, start), run) && After(Start(threads, start), run).ready == []
    ensures Matches(threads, After(Start(threads, start), run).applied)
  {
    var m := After(Start(threads, start), run);
    FirstComeFirstServed(threads, start, run);
    assert MoveIds(m.applied) == m.got;
    forall k | 0 <= k < |threads| ensures Times(MoveIds(m.applied), threads[k].id) ==
      if threads[k].kind == Bank then 1 else 0 { EachAsksOnce(threads, start, run, threads[k]); }
    forall j | 0 <= j < |m.applied| ensures Payer(threads, m.applied[j]) {
      assert m.asked[j] == m.applied[j].id && m.asked[j] in m.asked;
      SomeThread(threads, start, run, m.asked[j]);
      var k :| 0 <= k < |threads| && threads[k].id == m.asked[j];
      PaysOwnAmount(threads, start, run, threads[k]);
      assert m.applied[j] in m.applied;
    }
  }

  lemma {:induction false} SomeThread(threads: seq<Thread>, start: int, run: seq<bool>, id: int)
    requires Created(threads) && Legal(Start(threads, start), run) && After(Start(threads, start), run).ready == []
    requires id in After(Start(threads, start), run).asked
    ensures exists k :: 0 <= k < |threads| && threads[k].id == id
  {
    if threads == [] {
      EveryRunEnds(threads, start, run, false);
    } else {
      EachAsksOnce(threads, start, run, threads[0]);
    }
  }

  lemma {:induction false} DebitsLeft(moves: seq<Move>, k: nat)
    requires k <= |moves|
    ensures SumOf(moves[..k], Whole) >= SumOf(moves[..k], Debit) >= SumOf(moves, Debit)
    decreases |moves|
  {
    if k < |moves| {
      DebitsLeft(moves[..|moves| - 1], k);
      assert moves[..|moves| - 1][..k] == moves[..k];
    } else {
      assert moves[..k] == moves;
      if k > 0 {
        DebitsLeft(moves[..k - 1], k - 1);
        assert moves[..k - 1][..k - 1] == moves[..k - 1];
      }
    }
  }

  /** If the start covers all that is taken away, nothing is refused. */
  lemma {:induction false} Covered(m: Machine, start: int, k: nat)
    requires Booked(m, start) && k <= |m.applied| && start + SumOf(m.applied, Debit) >= 0
    ensures Reads(start, Statement(m.log), k) == start + SumOf(m.applied[..k], Whole)
  {
    if k > 0 {
      Covered(m, start, k - 1);
      DebitsLeft(m.applied, k);
      assert m.applied[..k][..k - 1] == m.applied[..k - 1];
    }
  }

  /** When the scheduler returns, under whatever signals, the balance is the start plus the arguments of all bank
      threads, if the start covers the negative ones together. */
  lemma {:induction false} AddsUp(threads: seq<Thread>, start: int, run: seq<bool>)
    requires Created(threads) && start >= 0 && Legal(Start(threads, start), run)
    requires After(Start(threads, start), run).ready == [] && start + BankSum(threads, Debit) >= 0
    ensures After(Start(threads, start), run).balance == start + BankSum(threads, Whole)
  {
    var m := After(Start(threads, start), run);
    StartInv(threads, start);
    RunBooks(Start(threads, start), run, start);
    AllMatched(threads, start, run);
    SumMatches(threads, m.applied, Debit);
    SumMatches(threads, m.applied, Whole);
    Covered(m, start, |m.applied|);
    assert m.applied[..|m.applied|] == m.applied;
  }

  /** So with positive arguments, however the threads are scheduled. */
  lemma {:induction false} DepositsAddUp(threads: seq<Thread>, start: int, run: seq<bool>)
    requires Created(threads) && start >= 0 && Legal(Start(threads, start), run)
    requires After(Start(threads, start), run).ready == []
    requires forall k :: 0 <= k < |threads| && threads[k].kind == Bank ==> threads[k].arg > 0
    ensures After(Start(threads, start), run).balance == start + BankSum(threads, Whole)
  {
    NoDebits(threads);
    AddsUp(threads, start, run);
  }

  lemma {:induction false} NoDebits(threads: seq<Thread>)
    requires forall k :: 0 <= k < |threads| && threads[k].kind == Bank ==> threads[k].arg > 0
    ensures BankSum(threads, Debit) == 0
  {
    if threads != [] { NoDebits(threads[..|threads| - 1]); }
  }
}
