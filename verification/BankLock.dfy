/** The bank: its lock is first come first served, and its balance is what the holders of the lock made it,
    one after the other. */
module BankLock {
  import opened GreenThreads
  import opened Occurrences
  import opened SchedulerInvariant
  import opened SchedulerRuns

  function Ids(ts: seq<Thread>): (r: seq<int>)
    ensures |r| == |ts| && forall k :: 0 <= k < |ts| ==> r[k] == ts[k].id
  {
    seq(|ts|, k requires 0 <= k < |ts| => ts[k].id)
  }

  /** The balance after a list of updates, each guarded by the balance it finds. */
  function Fold(balance: int, moves: seq<Move>): int {
    if moves == [] then balance else Updated(Fold(balance, moves[..|moves| - 1]), moves[|moves| - 1].amount)
  }

  /** The sum of the amounts that were accepted. */
  function Accepted(balance: int, moves: seq<Move>): int {
    if moves == [] then 0
    else
      var before, last := moves[..|moves| - 1], moves[|moves| - 1].amount;
      Accepted(balance, before) + if Accepts(Fold(balance, before), last) then last else 0
  }

  lemma {:induction false} FoldFacts(balance: int, moves: seq<Move>)
    ensures Fold(balance, moves) == balance + Accepted(balance, moves)
    ensures balance >= 0 ==> Fold(balance, moves) >= 0
  {
    if moves != [] { FoldFacts(balance, moves[..|moves| - 1]); }
  }

  lemma {:induction false} FoldAppend(balance: int, moves: seq<Move>, v: Move)
    ensures Fold(balance, moves + [v]) == Updated(Fold(balance, moves), v.amount)
  {
    assert (moves + [v])[..|moves|] == moves;
  }

  /** Those who got the lock have updated the balance in that order, but for the one who is about to. */
  ghost predicate Order(m: Machine) {
    && |m.applied| <= |m.got|
    && (forall j :: 0 <= j < |m.applied| ==> m.applied[j].id == m.got[j])
    && (m.owner == NOBODY ==> |m.applied| == |m.got|)
    && (m.owner != NOBODY ==>
          && |m.got| > 0 && m.got[|m.got| - 1] == m.owner
          && forall k :: 0 <= k < |m.ready| && m.ready[k].id == m.owner ==> |m.applied| == if m.ready[k].pc == Step3
              then |m.got| else |m.got| - 1)
  }

  ghost predicate Accounts(m: Machine, start: int) {
    m.asked == m.got + Ids(m.waiting) && Order(m) && m.balance == Fold(start, m.applied)
  }

  /** Between the turn and the scheduler a thread that blocks has asked and is not in line yet. */
  ghost predicate Midway(m: Machine, how: Outcome, start: int) {
    && m.cur < |m.ready|
    && m.asked == m.got + Ids(m.waiting) + (if how == Blocks then [m.ready[m.cur].id] else [])
    && Order(m) && m.balance == Fold(start, m.applied)
  }

  lemma {:induction false} LoopAccounts(m: Machine, start: int)
    requires Inv(m) && m.cur < |m.ready| && m.ready[m.cur].kind != Bank && Accounts(m, start)
    ensures Midway(Turn(m), OutcomeOf(m), start)
  {
    assert m.got + Ids(m.waiting) + [] == m.got + Ids(m.waiting);
  }

  /** The running thread asks for the lock. */
  lemma {:induction false} AskAccounts(m: Machine, start: int)
    requires Inv(m) && m.cur < |m.ready| && m.ready[m.cur].kind == Bank && m.ready[m.cur].pc == Fresh
        && Accounts(m, start)
    ensures Midway(BankTurn(m), OutcomeOf(m), start)
  {
    var t, n := m.ready[m.cur], BankTurn(m);
    assert n.ready[m.cur].id == t.id;
    if m.owner == NOBODY {
      assert Ids(m.waiting) == [];
      assert n.got + [] + [] == m.asked + [t.id];
    } else {
      assert m.asked + [t.id] == m.got + Ids(m.waiting) + [t.id];
    }
  }

  lemma {:induction false} HoldAccounts(m: Machine, start: int)
    requires Inv(m) && m.cur < |m.ready| && m.ready[m.cur].kind == Bank && m.ready[m.cur].pc != Fresh
        && Accounts(m, start)
    ensures Midway(BankTurn(m), OutcomeOf(m), start)
  {
    var t, n := m.ready[m.cur], BankTurn(m);
    assert m.got + Ids(m.waiting) + [] == m.got + Ids(m.waiting);
    assert n.ready[m.cur].id == t.id && t.id == m.owner;
    FoldAppend(start, m.applied, Move(t.id, t.arg));
  }

  /** The lock goes to thread t, which takes the place of the running one. */
  lemma {:induction false} HandOverOrder(m: Machine, n: Machine, t: Thread)
    requires m.cur < |m.ready| && Order(m) && m.owner == NOBODY && t.pc == Locked && t.id != NOBODY
    requires forall k :: 0 <= k < |m.ready| ==> m.ready[k].id != t.id
    requires n.applied == m.applied && n.got == m.got + [t.id] && n.owner == t.id && n.ready == m.ready[m.cur := t]
    ensures Order(n)
  {
  }

  lemma {:induction false} IdsTail(ts: seq<Thread>)
    requires ts != []
    ensures Ids(ts) == [ts[0].id] + Ids(ts[1..])
  {
  }

  lemma {:induction false} Passed(m: Machine, n: Machine, t: Thread, start: int)
    requires Midway(m, Exits, start) && m.waiting != [] && t == m.waiting[0] && n.waiting == m.waiting[1..]
    requires n.asked == m.asked && n.got == m.got + [t.id] && n.applied == m.applied && n.balance == m.balance
        && Order(n)
    ensures Accounts(n, start)
  {
    IdsTail(m.waiting);
    Regroup(m.got, t.id, Ids(n.waiting));
  }

  lemma {:induction false} Regroup(a: seq<int>, x: int, b: seq<int>)
    ensures a + ([x] + b) + [] == a + [x] + b
  {
  }

  lemma {:induction false} HandOverAccounts(m: Machine, start: int)
    requires Turned(m, Exits) && Midway(m, Exits, start) && m.owner == NOBODY && m.waiting != []
    ensures Accounts(Schedule(m, Exits), start)
  {
    var t := m.waiting[0];
    assert forall k :: 0 <= k < |m.ready| ==> m.ready[k].id != t.id;
    var n := m.(owner := t.id, ready := m.ready[m.cur := t], waiting := m.waiting[1..], got := m.got + [t.id]);
    HandOverOrder(m, n, t);
    Passed(m, n, t, start);
    HandsOver(m);
  }

  lemma {:induction false} DropOrder(m: Machine)
    requires m.cur < |m.ready| && Order(m)
    ensures Order(DropRunning(m))
  {
    Dropped(m);
  }

  lemma {:induction false} ScheduleAccounts(m: Machine, how: Outcome, start: int)
    requires Turned(m, how) && Midway(m, how, start)
    ensures Accounts(Schedule(m, how), start)
  {
    if how == Exits && m.owner == NOBODY && m.waiting != [] {
      HandOverAccounts(m, start);
    } else if how == Yields {
      assert m.got + Ids(m.waiting) + [] == m.got + Ids(m.waiting);
    } else if how == Exits {
      DropOrder(m);
      assert m.got + Ids(m.waiting) + [] == m.got + Ids(m.waiting);
    } else {
      var t := m.ready[m.cur];
      DropOrder(m);
      assert Schedule(m, how) == DropRunning(m).(waiting := m.waiting + [t]);
      assert Ids(m.waiting + [t]) == Ids(m.waiting) + [t.id];
      assert m.got + Ids(m.waiting) + [t.id] == m.got + Ids(m.waiting + [t]);
    }
  }

  lemma {:induction false} StepAccounts(m: Machine, signal: bool, start: int)
    requires Inv(m) && m.cur < |m.ready| && Accounts(m, start)
    ensures Accounts(Step(m, signal), start)
  {
    if m.ready[m.cur].kind != Bank { LoopAccounts(m, start); LoopTurns(m); }
    else {
      BankTurns(m);
      if m.ready[m.cur].pc == Fresh { AskAccounts(m, start); } else { HoldAccounts(m, start); }
    }
    var n := Turn(m);
    assert n.got + Ids(n.waiting) + [] == n.got + Ids(n.waiting);
    if OutcomeOf(m) != Yields || signal { ScheduleAccounts(n, OutcomeOf(m), start); }
  }

  lemma {:induction false} RunAccounts(m: Machine, run: seq<bool>, start: int)
    requires Inv(m) && Legal(m, run) && Accounts(m, start)
    ensures Accounts(After(m, run), start)
    decreases |run|
  {
    if run != [] {
      StepAccounts(m, run[0], start);
      StepKeeps(m, run[0]);
      RunAccounts(Step(m, run[0]), run[1..], start);
    }
  }

  /** At every point of every run: the requests made are those granted followed by those in line, so nobody
      gets the lock ahead of an earlier request; the updates happen in the order of the grants; the balance
      is the fold of the guarded updates, that is, what it was at the start plus the amounts accepted, and it
      stays non-negative. When the scheduler returns every request has been granted and carried out. */
  lemma {:induction false} FirstComeFirstServed(threads: seq<Thread>, start: int, run: seq<bool>)
    requires Created(threads) && Legal(Start(threads, start), run)
    ensures var m := After(Start(threads, start), run);
            && m.asked == m.got + Ids(m.waiting)
            && |m.got| - 1 <= |m.applied| <= |m.got|
                && (forall j :: 0 <= j < |m.applied| ==> m.applied[j].id == m.got[j])
            && m.balance == Fold(start, m.applied) == start + Accepted(start, m.applied)
            && (start >= 0 ==> m.balance >= 0)
            && (m.ready == [] ==> m.asked == m.got && |m.applied| == |m.asked|)
  {
    var s := Start(threads, start);
    StartInv(threads, start);
    assert s.got + Ids(s.waiting) == [];
    RunAccounts(s, run, start);
    RunKeeps(s, run);
    var m := After(s, run);
    FoldFacts(start, m.applied);
    if m.owner != NOBODY {
      var k :| 0 <= k < |m.ready| && m.ready[k].id == m.owner;
    }
  }

  /** Every update is for the amount its thread was created with. */
  ghost predicate Paid(m: Machine, o: Thread) {
    forall v :: v in m.applied && v.id == o.id ==> v.amount == o.arg
  }

  /** The balance of any run: each of the updates in it, and so each accepted amount, is the argument that the
      thread of that name was created with. */
  lemma {:induction false} PaysOwnAmount(threads: seq<Thread>, start: int, run: seq<bool>, o: Thread)
    requires Created(threads) && Legal(Start(threads, start), run) && o in threads
    ensures Paid(After(Start(threads, start), run), o)
  {
    StartInv(threads, start);
    TellsAtStart(threads, start, o);
    RunPays(Start(threads, start), run, o);
  }

  lemma {:induction false} RunPays(m: Machine, run: seq<bool>, o: Thread)
    requires Inv(m) && Legal(m, run) && Told(m, o) && Paid(m, o)
    ensures Paid(After(m, run), o)
    decreases |run|
  {
    if run != [] {
      PaysOne(m, run[0], o);
      StepTells(m, run[0], o);
      StepKeeps(m, run[0]);
      RunPays(Step(m, run[0]), run[1..], o);
    }
  }

  lemma {:induction false} PaysOne(m: Machine, signal: bool, o: Thread)
    requires Inv(m) && m.cur < |m.ready| && Told(m, o) && Paid(m, o)
    ensures Paid(Step(m, signal), o)
  {
    var t, n := m.ready[m.cur], Turn(m);
    assert Says(t, o, Output(m.log, o.id));
    assert Step(m, signal).applied == n.applied;
    assert n.applied == m.applied || n.applied == m.applied + [Move(t.id, t.arg)];
  }

  // ---------- who has used the bank when it is over ----------

  /** Who has printed a change of the balance, in order. */
  function Movers(log: seq<Line>): seq<int> {
    if log == [] then []
    else Movers(log[..|log| - 1]) + if log[|log| - 1].Balance? then [log[|log| - 1].id] else []
  }

  function MoveIds(moves: seq<Move>): (r: seq<int>)
    ensures |r| == |moves| && forall k :: 0 <= k < |moves| ==> r[k] == moves[k].id
  {
    seq(|moves|, k requires 0 <= k < |moves| => moves[k].id)
  }

  /** Every update is printed; only the threads in `ids` take part. */
  ghost predicate Public(m: Machine, ids: set<int>) {
    && Movers(m.log) == MoveIds(m.applied)
    && (forall k :: 0 <= k < |m.ready| ==> m.ready[k].id in ids)
    && (forall k :: 0 <= k < |m.waiting| ==> m.waiting[k].id in ids)
    && (forall x :: x in m.asked ==> x in ids)
  }

  lemma {:induction false} MoversAppend(log: seq<Line>, l: Line)
    ensures Movers(log + [l]) == Movers(log) + if l.Balance? then [l.id] else []
  {
    assert (log + [l])[..|log|] == log;
  }

  /** Changes of the balance can be counted in the output of one thread. */
  lemma {:induction false} MoversOf(log: seq<Line>, id: int)
    ensures Times(Movers(log), id) == |Movers(Output(log, id))|
  {
    if log != [] {
      var before, l := log[..|log| - 1], log[|log| - 1];
      var out := Output(before, id);
      MoversOf(before, id);
      TimesAppend(Movers(before), l.id, id);
      MoversAppend(out, l);
      assert Movers(before) + [] == Movers(before) && out + [] == out && Movers(out) + [] == Movers(out);
    }
  }

  lemma {:induction false} NoMovers(kind: Kind, id: int, n: nat)
    ensures Movers(Numbers(kind, id, n)) == []
  {
    if n > 0 {
      NextNumber(kind, id, n - 1);
      NoMovers(kind, id, n - 1);
      MoversAppend(Numbers(kind, id, n - 1), Numbers(kind, id, n)[n - 1]);
    }
  }

  lemma {:induction false} MovesOnce(o: Thread, out: seq<Line>)
    requires Lines(o, out, Full(o))
    ensures |Movers(out)| == if o.kind == Bank then 1 else 0
  {
    if o.kind == Bank {
      var none: seq<Line> := [];
      assert out == none + [out[0]] + [out[1]] + [out[2]];
      MoversAppend(none, out[0]);
      MoversAppend(none + [out[0]], out[1]);
      MoversAppend(none + [out[0]] + [out[1]], out[2]);
    } else {
      NoMovers(o.kind, o.id, Full(o));
    }
  }

  /** A turn prints one line or none, and an update exactly with a change of the balance. */
  lemma {:induction false} TurnPrints(m: Machine)
    requires m.cur < |m.ready|
    ensures var t, n := m.ready[m.cur], Turn(m);
            && (n.asked == m.asked || n.asked == m.asked + [t.id])
            && ((n.log == m.log && n.applied == m.applied)
                || (|n.log| > 0 && n.log == m.log + [n.log[|n.log| - 1]] && n.log[|n.log| - 1].id == t.id
                    && n.applied == m.applied + if n.log[|n.log| - 1].Balance? then [Move(t.id, t.arg)] else []))
  {
    assert m.applied + [] == m.applied;
  }

  lemma {:induction false} TurnPublic(m: Machine, ids: set<int>)
    requires m.cur < |m.ready| && Public(m, ids)
    ensures Public(Turn(m), ids)
  {
    TurnLocal(m);
    TurnPrints(m);
    PublicNext(m, Turn(m), ids);
  }

  lemma {:induction false} PublicNext(m: Machine, n: Machine, ids: set<int>)
    requires Public(m, ids) && Local(m, n) && (n.asked == m.asked || n.asked == m.asked + [m.ready[m.cur].id])
    requires || (n.log == m.log && n.applied == m.applied)
             || (|n.log| > 0 && n.log == m.log + [n.log[|n.log| - 1]] && n.log[|n.log| - 1].id == m.ready[m.cur].id
                 && n.applied == m.applied + if n.log[|n.log| - 1].Balance?
                                             then [Move(m.ready[m.cur].id, m.ready[m.cur].arg)] else [])
    ensures Public(n, ids)
  {
    if n.log != m.log {
      var l := n.log[|n.log| - 1];
      MoversAppend(m.log, l);
      assert MoveIds(n.applied) == MoveIds(m.applied) + if l.Balance? then [l.id] else [];
    }
  }

  lemma {:induction false} DropPublic(m: Machine, ids: set<int>)
    requires m.cur < |m.ready| && Public(m, ids)
    ensures Public(DropRunning(m), ids)
  {
    Dropped(m);
  }

  lemma {:induction false} SchedulePublic(m: Machine, how: Outcome, ids: set<int>)
    requires m.cur < |m.ready| && Public(m, ids)
    ensures Public(Schedule(m, how), ids)
  {
    var h := HandOff(m);
    assert Public(h, ids);
    if how == Blocks {
      DropPublic(h.(waiting := h.waiting + [h.ready[h.cur]]), ids);
    } else if how == Exits {
      DropPublic(h, ids);
    }
  }

  lemma {:induction false} RunPublic(m: Machine, run: seq<bool>, ids: set<int>)
    requires Inv(m) && Legal(m, run) && Public(m, ids)
    ensures Public(After(m, run), ids)
    decreases |run|
  {
    if run != [] {
      TurnPublic(m, ids);
      if OutcomeOf(m) != Yields || run[0] { SchedulePublic(Turn(m), OutcomeOf(m), ids); }
      StepKeeps(m, run[0]);
      RunPublic(Step(m, run[0]), run[1..], ids);
    }
  }

  /** When the scheduler returns, the lock has been asked for, and got, exactly once by every bank operation,
      and by nobody else. */
  lemma {:induction false} EachAsksOnce(threads: seq<Thread>, start: int, run: seq<bool>, o: Thread)
    requires Created(threads) && Legal(Start(threads, start), run) && o in threads
    requires After(Start(threads, start), run).ready == []
    ensures var m := After(Start(threads, start), run);
            && m.got == m.asked && Times(m.asked, o.id) == (if o.kind == Bank then 1 else 0)
            && forall x :: x in m.asked ==> exists j :: 0 <= j < |threads| && threads[j].id == x
  {
    var s, m := Start(threads, start), After(Start(threads, start), run);
    StartInv(threads, start);
    FirstComeFirstServed(threads, start, run);
    ScheduleIndependence(threads, start, run, o);
    var ids := set j | 0 <= j < |threads| :: threads[j].id;
    RunPublic(s, run, ids);
    assert MoveIds(m.applied) == m.got;
    MoversOf(m.log, o.id);
    MovesOnce(o, Output(m.log, o.id));
  }
}
