/** Whole runs of a thread pool: what every schedule keeps, and that waiting and shutting down come to an end. */
module PoolRuns {
  import opened Occurrences
  import opened TaskQueue
  import opened ThreadPool

  ghost predicate Legal(p: Threads, run: seq<Action>)
    decreases |run|
  {
    run == [] || (Enabled(p, run[0]) && Legal(Do(p, run[0]), run[1..]))
  }

  ghost function After(p: Threads, run: seq<Action>): (q: Threads)
    requires Legal(p, run)
    ensures |q.workers| == |p.workers| && |q.waiters| == |p.waiters|
    decreases |run|
  {
    if run == [] then p else After(Do(p, run[0]), run[1..])
  }

  lemma {:induction false} Chain(p: Threads, r: seq<Action>, s: seq<Action>)
    requires Legal(p, r) && Legal(After(p, r), s)
    ensures Legal(p, r + s) && After(p, r + s) == After(After(p, r), s)
    decreases |r|
  {
    if r == [] {
      assert r + s == s;
    } else {
      Chain(Do(p, r[0]), r[1..], s);
      assert (r + s)[1..] == r[1..] + s;
    }
  }

  // ---------- every schedule ----------

  /** The invariant holds after every run, and no task, finish or free is ever taken back. */
  lemma {:induction false} RunKeeps(p: Threads, run: seq<Action>)
    requires Inv(p) && Legal(p, run)
    ensures Inv(After(p, run))
    ensures p.started <= After(p, run).started && p.done <= After(p, run).done && p.added <= After(p, run).added
    decreases |run|
  {
    if run != [] {
      StepKeeps(p, run[0]);
      StepGrows(p, run[0]);
      RunKeeps(Do(p, run[0]), run[1..]);
    }
  }

  lemma {:induction false} StepGrows(p: Threads, a: Action)
    requires Enabled(p, a)
    ensures p.started <= Do(p, a).started && p.done <= Do(p, a).done && p.added <= Do(p, a).added
  {
    if a.Look? { assert Do(p, a) == LookOf(p, a.i); }
  }

  lemma {:induction false} HoldingBound(ws: seq<Worker>)
    ensures Holding(ws) <= |ws|
    ensures Holding(ws) == |ws| ==> forall i :: 0 <= i < |ws| ==> Holds(ws[i])
    ensures Holding(ws) == 0 ==> forall i :: 0 <= i < |ws| ==> !Holds(ws[i])
  {
    if ws != [] { HoldingBound(ws[..|ws| - 1]); }
  }

  lemma {:induction false} TimesPrefix(s: seq<nat>, n: nat, t: nat)
    requires s <= Upto(n)
    ensures Times(s, t) == if t < |s| then 1 else 0
    decreases |s|
  {
    if s != [] {
      assert s[|s| - 1] == |s| - 1;
      TimesPrefix(s[..|s| - 1], n, t);
    }
  }

  /** Dispatch is FIFO and exactly once: the tasks started are the first ones added, in order, and each of
      them is held by exactly one worker, or done once and freed once, or done once and about to be freed. */
  lemma {:induction false} ExactlyOnce(n: nat, m: nat, run: seq<Action>, t: nat)
    requires Legal(Init(n, m), run)
    ensures var p := After(Init(n, m), run);
            && p.started + p.swept + p.shared.queue == Upto(p.added)
            && p.shared.running == Holding(p.workers) <= n
            && Times(p.done, t) + Times(p.workers, Running(t)) == (if t < |p.started| then 1 else 0)
            && Times(p.freed, t) + Times(p.workers, Returned(t)) == Times(p.done, t)
  {
    InitInv(n, m);
    RunKeeps(Init(n, m), run);
    var p := After(Init(n, m), run);
    HoldingBound(p.workers);
    TimesPrefix(p.started, p.added, t);
    assert Ledger(p, t);
  }

  /** A run in which no thread calls `tpool_wait` while another is in it. */
  ghost predicate PoliteRun(p: Threads, run: seq<Action>)
    requires Legal(p, run)
    decreases |run|
  {
    run == [] || (Polite(p, run[0]) && PoliteRun(Do(p, run[0]), run[1..]))
  }

  lemma {:induction false} PoliteRunKeeps(p: Threads, run: seq<Action>)
    requires Inv(p) && Attended(p) && Legal(p, run) && PoliteRun(p, run)
    ensures Attended(After(p, run))
    decreases |run|
  {
    if run != [] {
      StepKeeps(p, run[0]);
      PoliteKeeps(p, run[0]);
      PoliteRunKeeps(Do(p, run[0]), run[1..]);
    }
  }

  /** With one possible caller every run is of that kind. */
  lemma {:induction false} OneCaller(p: Threads, run: seq<Action>)
    requires Legal(p, run) && |p.waiters| <= 1
    ensures PoliteRun(p, run)
    decreases |run|
  {
    if run != [] { OneCaller(Do(p, run[0]), run[1..]); }
  }

  /** No lost wakeup, in every reachable state: a worker sleeps only while there is no task and no end in
      sight, and, as long as the callers of `tpool_wait` take turns, one of them sleeps only while a task is
      queued or running. */
  lemma {:induction false} NoLostWakeup(n: nat, m: nat, run: seq<Action>)
    requires Legal(Init(n, m), run)
    ensures var p := After(Init(n, m), run);
            && (Asleep in p.workers ==> p.shared.queue == [] && !p.shared.term)
            && (PoliteRun(Init(n, m), run) && Sleeping in p.waiters ==> p.shared.queue != [] || p.shared.running > 0)
    ensures m <= 1 ==> PoliteRun(Init(n, m), run)
  {
    InitInv(n, m);
    RunKeeps(Init(n, m), run);
    if m <= 1 { OneCaller(Init(n, m), run); }
    if PoliteRun(Init(n, m), run) { PoliteRunKeeps(Init(n, m), run); }
  }

  /** A pool of n threads has n threads, as many as it was made with, at every point of every run. */
  lemma {:induction false} AsManyAsAsked(n: nat, m: nat, run: seq<Action>)
    requires Legal(Init(n, m), run)
    ensures |After(Init(n, m), run).workers| == n && |After(Init(n, m), run).waiters| == m
  {
    assert |Init(n, m).workers| == n && |Init(n, m).waiters| == m;
  }

  /** A queued task never has to wait for another to return while some worker has none: whoever it is, it is awake
      and takes the oldest task when it gets the mutex. */
  lemma {:induction false} FreeWorkerTakes(n: nat, m: nat, run: seq<Action>, i: nat)
    requires Legal(Init(n, m), run) && i < n
    requires var p := After(Init(n, m), run);
             i < |p.workers| && !p.shared.term && p.shared.queue != [] && !Holds(p.workers[i])
    ensures var p := After(Init(n, m), run);
            && Enabled(p, Look(i))
            && var q := Do(p, Look(i));
            && q.workers == p.workers[i := Running(p.shared.queue[0])] && q.shared.running == p.shared.running + 1
            && q.shared.queue == p.shared.queue[1..]
  {
    InitInv(n, m);
    RunKeeps(Init(n, m), run);
    AsManyAsAsked(n, m, run);
  }

  /** All n workers can be busy at once, each with a task of its own. */
  lemma {:induction false} AllAtOnce(n: nat, m: nat) returns (run: seq<Action>)
    ensures Legal(Init(n, m), run)
    ensures var p := After(Init(n, m), run);
            && p.shared.running == n == |p.workers| && p.shared.queue == []
            && forall i :: 0 <= i < n ==> p.workers[i] == Running(i)
  {
    run := BusyUpto(n, m, n);
  }

  /** The first k workers run the first k tasks, and nothing else has happened. */
  ghost predicate FirstBusy(p: Threads, n: nat, k: nat) {
    && p.shared == Shared([], k, false) && p.added == k && k <= n == |p.workers|
    && forall i :: 0 <= i < n ==> p.workers[i] == if i < k then Running(i) else Awake
  }

  lemma {:induction false} BusyUpto(n: nat, m: nat, k: nat) returns (run: seq<Action>)
    requires k <= n
    ensures Legal(Init(n, m), run) && FirstBusy(After(Init(n, m), run), n, k)
  {
    if k == 0 {
      run := [];
    } else {
      var before := BusyUpto(n, m, k - 1);
      var p := After(Init(n, m), before);
      assert Broadcast(p.workers) == p.workers;
      var more := [Add, Look(k - 1)];
      assert Legal(p, more) && FirstBusy(After(p, more), n, k) by { OneMoreBusy(p, n, k - 1); }
      Chain(Init(n, m), before, more);
      run := before + more;
    }
  }

  lemma {:induction false} OneMoreBusy(p: Threads, n: nat, k: nat)
    requires FirstBusy(p, n, k) && k < n
    ensures var more := [Add, Look(k)]; Legal(p, more) && FirstBusy(After(p, more), n, k + 1)
  {
    var more := [Add, Look(k)];
    var q := Do(p, Add);
    assert more[1..] == [Look(k)] && [Look(k)][1..] == [];
    assert q.workers == p.workers && q.shared.queue == [k];
    var r := LookOf(q, k);
    assert Do(q, Look(k)) == r && r.shared == Shared([], k + 1, false) && r.workers == q.workers[k := Running(k)];
    assert Legal(r, []) && After(q, [Look(k)]) == After(r, []) == r;
    assert After(p, more) == After(q, more[1..]);
  }

  lemma {:induction false} NoneHolds(ws: seq<Worker>, t: nat)
    requires forall i :: 0 <= i < |ws| ==> !Holds(ws[i])
    ensures Times(ws, Running(t)) == 0 && Times(ws, Returned(t)) == 0 && Holding(ws) == 0
  {
    if ws != [] { NoneHolds(ws[..|ws| - 1], t); }
  }

  /** When nothing is queued and nothing runs, every task ever added has run to completion, once. */
  lemma {:induction false} QuietMeansDone(p: Threads, t: nat)
    requires Inv(p) && Quiet(p.shared) && p.swept == []
    ensures p.started == Upto(p.added) && Times(p.done, t) == Times(p.freed, t) == if t < p.added then 1 else 0
  {
    HoldingBound(p.workers);
    NoneHolds(p.workers, t);
    TimesPrefix(p.started, p.added, t);
    assert Ledger(p, t);
  }

  /** A waiter leaves `tpool_wait` only when every task added by then is done. */
  lemma {:induction false} LeavesWhenDone(p: Threads, w: nat, t: nat)
    requires Inv(p) && Enabled(p, Test(w)) && Do(p, Test(w)).waiters[w] == Away && t < p.added
    ensures t in p.done
  {
    QuietMeansDone(p, t);
    TimesIn(p.done, t);
  }

  /** Whatever the other threads do meanwhile, and however often the waiter is woken for nothing: a call of
      `tpool_wait` that has returned has seen every task that was added before the call completed. */
  lemma {:induction false} WaitSeesAll(p: Threads, run: seq<Action>, w: nat, t: nat)
    requires Inv(p) && Legal(p, run) && w < |p.waiters| && p.waiters[w] != Away && t < p.added
    requires After(p, run).waiters[w] == Away
    ensures t in After(p, run).done
    decreases |run|
  {
    var q := Do(p, run[0]);
    StepKeeps(p, run[0]);
    if q.waiters[w] == Away {
      LeavesWhenDone(p, w, t);
      RunKeeps(q, run[1..]);
    } else {
      WaitSeesAll(q, run[1..], w, t);
    }
  }

  // ---------- progress ----------

  /** The actions left when nobody calls the pool any more and no thread is woken spuriously. */
  predicate Busy(a: Action) {
    a.Test? || a.Look? || a.Return? || a.Finish? || a.Join? || a.Sweep?
  }

  predicate Rouse(a: Action) {
    a.RouseWorker? || a.RouseWaiter?
  }

  ghost predicate Stuck(p: Threads) {
    forall a :: Busy(a) ==> !Enabled(p, a)
  }

  function WorkerWeight(w: Worker): nat {
    match w
    case Awake => 1
    case Asleep => 0
    case Running(_) => 4
    case Returned(_) => 3
    case Exited => 0
  }

  function WorkerSum(ws: seq<Worker>): nat {
    if ws == [] then 0 else WorkerWeight(ws[0]) + WorkerSum(ws[1..])
  }

  function WaiterSum(vs: seq<Waiter>): nat {
    if vs == [] then 0 else (if vs[0] == Testing then 1 else 0) + WaiterSum(vs[1..])
  }

  function DestroyerWeight(d: Destroyer, n: nat): nat {
    match d
    case Idle => 0
    case Joining(k) => if k <= n then n - k + 1 else 0
    case Gone => 0
  }

  /** How many busy actions can follow: four for each queued task and one for each thread that is awake, with
      a thread that holds a task in between. */
  function Measure(p: Threads): nat {
    4 * |p.shared.queue| + WorkerSum(p.workers) + WaiterSum(p.waiters) + DestroyerWeight(p.destroyer, |p.workers|)
  }

  lemma {:induction false} WorkerSumMoved(ws: seq<Worker>, i: nat, w: Worker)
    requires i < |ws|
    ensures WorkerSum(ws[i := w]) + WorkerWeight(ws[i]) == WorkerSum(ws) + WorkerWeight(w)
  {
    if i == 0 {
      assert ws[i := w][1..] == ws[1..];
    } else {
      assert ws[i := w][1..] == ws[1..][i - 1 := w];
      WorkerSumMoved(ws[1..], i - 1, w);
    }
  }

  lemma {:induction false} WaiterSumMoved(vs: seq<Waiter>, i: nat, v: Waiter)
    requires i < |vs|
    ensures WaiterSum(vs[i := v]) + (if vs[i] == Testing then 1 else 0) == WaiterSum(vs) + if v == Testing then 1 else 0
  {
    if i == 0 {
      assert vs[i := v][1..] == vs[1..];
    } else {
      assert vs[i := v][1..] == vs[1..][i - 1 := v];
      WaiterSumMoved(vs[1..], i - 1, v);
    }
  }

  /** Every busy action takes the measure down. */
  lemma {:induction false} BusyDrops(p: Threads, a: Action)
    requires Inv(p) && Enabled(p, a) && Busy(a)
    ensures Measure(Do(p, a)) < Measure(p)
  {
    if a.Test? { WaiterSumMoved(p.waiters, a.w, if Quiet(p.shared) then Away else Sleeping); }
    else if a.Look? { WorkerSumMoved(p.workers, a.i, Do(p, a).workers[a.i]); }
    else if a.Return? { WorkerSumMoved(p.workers, a.i, Returned(p.workers[a.i].task)); }
    else if a.Finish? {
      WorkerSumMoved(p.workers, a.i, Awake);
      if a.w < |p.waiters| { WaiterSumMoved(p.waiters, a.w, Testing); }
    }
  }

  lemma {:induction false} RouseAdds(p: Threads, a: Action)
    requires Enabled(p, a) && Rouse(a)
    ensures Measure(Do(p, a)) == Measure(p) + 1
  {
    if a.RouseWorker? { WorkerSumMoved(p.workers, a.i, Awake); } else { WaiterSumMoved(p.waiters, a.w, Testing); }
  }

  function Rouses(run: seq<Action>): nat {
    if run == [] then 0 else (if Rouse(run[0]) then 1 else 0) + Rouses(run[1..])
  }

  /** Every run of busy actions is bounded by the measure; a spurious wakeup buys two more actions. */
  lemma {:induction false} Bounded(p: Threads, run: seq<Action>)
    requires Inv(p) && Legal(p, run) && forall a :: a in run ==> Busy(a) || Rouse(a)
    ensures |run| + Measure(After(p, run)) <= Measure(p) + 2 * Rouses(run)
    decreases |run|
  {
    if run != [] {
      assert Busy(run[0]) || Rouse(run[0]);
      StepKeeps(p, run[0]);
      Bounded(Do(p, run[0]), run[1..]);
      if Busy(run[0]) { BusyDrops(p, run[0]); } else { RouseAdds(p, run[0]); }
    }
  }

  lemma {:induction false} SomeoneSleeps(vs: seq<Waiter>) returns (w: nat)
    ensures Sleeping in vs ==> w < |vs| && vs[w] == Sleeping
  {
    w := 0;
    if Sleeping in vs { w :| w < |vs| && vs[w] == Sleeping; }
  }

  /** In a stuck pool every worker is asleep or gone. */
  lemma {:induction false} StuckWorkers(p: Threads, i: nat)
    requires Inv(p) && Stuck(p) && i < |p.workers|
    ensures p.workers[i] == Asleep || p.workers[i] == Exited
  {
    assert !Enabled(p, Look(i)) && !Enabled(p, Return(i));
    if p.workers[i].Returned? {
      var w := CanFinish(p, i);
    }
  }

  lemma {:induction false} CanFinish(p: Threads, i: nat) returns (w: nat)
    requires Inv(p) && i < |p.workers| && p.workers[i].Returned?
    ensures Enabled(p, Finish(i, w))
  {
    w := SomeoneSleeps(p.waiters);
    HoldingBound(p.workers);
  }

  lemma {:induction false} StuckRuns(p: Threads)
    requires Inv(p) && Stuck(p)
    ensures Holding(p.workers) == 0
  {
    forall i | 0 <= i < |p.workers| ensures !Holds(p.workers[i]) { StuckWorkers(p, i); }
    NoneHolds(p.workers, 0);
  }

  /** As long as the pool has a worker and is not being destroyed, it only comes to rest with an empty queue,
      nothing running, and nobody left in `tpool_wait`. */
  lemma {:induction false} RestsWhenDone(p: Threads)
    requires Inv(p) && Attended(p) && Stuck(p) && !p.shared.term && |p.workers| > 0
    ensures Quiet(p.shared) && forall w :: 0 <= w < |p.waiters| ==> p.waiters[w] == Away
  {
    StuckRuns(p);
    StuckWorkers(p, 0);
    forall w | 0 <= w < |p.waiters| ensures p.waiters[w] == Away { assert !Enabled(p, Test(w)); }
  }

  /** Once calls stop, `tpool_wait` returns: under every schedule of the threads, with any finite number of
      spurious wakeups, only boundedly many actions happen, and when none is left the waiter is out and
      every task added has been done exactly once. */
  lemma {:induction false} WaitEnds(p: Threads, run: seq<Action>)
    requires Inv(p) && Attended(p) && !p.shared.term && |p.workers| > 0
    requires Legal(p, run) && forall a :: a in run ==> Busy(a) || Rouse(a)
    ensures |run| <= Measure(p) + 2 * Rouses(run)
    ensures Stuck(After(p, run)) ==>
      var q := After(p, run);
      && (forall w :: 0 <= w < |q.waiters| ==> q.waiters[w] == Away)
      && q.added == p.added && forall t: nat :: t < p.added ==> Times(q.done, t) == 1
  {
    Bounded(p, run);
    RunKeeps(p, run);
    BusyIsPolite(p, run);
    PoliteRunKeeps(p, run);
    var q := After(p, run);
    NobodyCalls(p, run);
    if Stuck(q) {
      RestsWhenDone(q);
      forall t: nat | t < p.added ensures Times(q.done, t) == 1 { QuietMeansDone(q, t); }
    }
  }

  lemma {:induction false} BusyIsPolite(p: Threads, run: seq<Action>)
    requires Legal(p, run) && forall a :: a in run ==> Busy(a) || Rouse(a)
    ensures PoliteRun(p, run)
    decreases |run|
  {
    if run != [] {
      assert Busy(run[0]) || Rouse(run[0]);
      BusyIsPolite(Do(p, run[0]), run[1..]);
    }
  }

  lemma {:induction false} NobodyCalls(p: Threads, run: seq<Action>)
    requires Inv(p) && Legal(p, run) && forall a :: a in run ==> Busy(a) || Rouse(a)
    ensures After(p, run).added == p.added && After(p, run).shared.term == p.shared.term
    ensures !p.shared.term ==> After(p, run).swept == p.swept
    decreases |run|
  {
    if run != [] {
      assert Busy(run[0]) || Rouse(run[0]);
      StepKeeps(p, run[0]);
      NobodyCalls(Do(p, run[0]), run[1..]);
    }
  }

  // ---------- shutting down ----------

  /** Once the pool is terminating no task starts, under any schedule. */
  lemma {:induction false} NoStartAfterTerm(p: Threads, run: seq<Action>)
    requires Inv(p) && p.shared.term && Legal(p, run)
    ensures After(p, run).started == p.started && After(p, run).shared.term && After(p, run).added == p.added
    decreases |run|
  {
    if run != [] {
      StepKeeps(p, run[0]);
      NoStartAfterTerm(Do(p, run[0]), run[1..]);
    }
  }

  /** A terminating pool only comes to rest when it is gone. */
  lemma {:induction false} TermEnds(p: Threads)
    requires Inv(p) && Stuck(p) && p.shared.term
    ensures p.destroyer == Gone
  {
    if p.destroyer.Joining? {
      var k := p.destroyer.next;
      assert !Enabled(p, Join) && !Enabled(p, Sweep);
      if k < |p.workers| { StuckWorkers(p, k); }
    }
  }

  /** A pool that is gone has freed every node once: a worker did if it ran the task, `tpool_destroy` did
      if it did not; every worker has left. */
  lemma {:induction false} GoneIsClean(p: Threads, t: nat)
    requires Inv(p) && p.destroyer == Gone
    ensures forall i :: 0 <= i < |p.workers| ==> p.workers[i] == Exited
    ensures p.started + p.swept == Upto(p.added)
    ensures Times(p.freed, t) == Times(p.done, t) == Times(p.started, t)
    ensures Times(p.freed, t) + Times(p.swept, t) == if t < p.added then 1 else 0
  {
    NoneHolds(p.workers, t);
    assert Ledger(p, t);
    assert p.started + p.swept + [] == p.started + p.swept;
    TimesConcat(p.started, p.swept, t);
    TimesPrefix(p.started + p.swept, p.added, t);
  }

  /** Shutdown accounting: under every schedule `tpool_destroy` ends after boundedly many actions; only tasks
      that ran before it started have run, and each node has been freed once. */
  lemma {:induction false} DestroyEnds(p: Threads, run: seq<Action>)
    requires Inv(p) && p.shared.term && Legal(p, run) && forall a :: a in run ==> Busy(a) || Rouse(a)
    ensures |run| <= Measure(p) + 2 * Rouses(run)
    ensures After(p, run).started == p.started
    ensures Stuck(After(p, run)) ==>
      var q := After(p, run);
      && q.destroyer == Gone && q.started + q.swept == Upto(p.added)
      && (forall i :: 0 <= i < |q.workers| ==> q.workers[i] == Exited)
      && (forall t: nat :: t < p.added ==> Times(q.freed, t) + Times(q.swept, t) == 1)
  {
    Bounded(p, run);
    RunKeeps(p, run);
    NoStartAfterTerm(p, run);
    var q := After(p, run);
    if Stuck(q) {
      TermEnds(q);
      GoneIsClean(q, 0);
      forall t: nat | t < p.added ensures Times(q.freed, t) + Times(q.swept, t) == 1 { GoneIsClean(q, t); }
    }
  }

  // ---------- how many threads may wait ----------

  /** With n workers and m threads that may call `tpool_wait`: whenever the pool comes to rest, every
      call has returned. */
  ghost predicate WaitsReturn(n: nat, m: nat) {
    forall run, w: nat :: w < m && Legal(Init(n, m), run) && Stuck(After(Init(n, m), run)) ==>
        After(Init(n, m), run).waiters[w] == Away
  }

  /** Someone sleeps although there is nothing to wait for and no worker that could signal. */
  ghost predicate Stranded(p: Threads, w: nat) {
    Inv(p) && w < |p.waiters| && p.waiters[w] == Sleeping && Quiet(p.shared)
  }

  lemma {:induction false} StaysStranded(p: Threads, a: Action, w: nat)
    requires Stranded(p, w) && Enabled(p, a) && Busy(a)
    ensures Stranded(Do(p, a), w)
  {
    HoldingBound(p.workers);
    StepKeeps(p, a);
  }

  /** A stranded waiter stays asleep, whatever the other threads still do, until someone calls the pool again
      or it is woken for nothing. */
  lemma {:induction false} StrandedForGood(p: Threads, run: seq<Action>, w: nat)
    requires Stranded(p, w) && Legal(p, run) && forall a :: a in run ==> Busy(a)
    ensures Stranded(After(p, run), w)
    decreases |run|
  {
    if run != [] {
      assert run[0] in run;
      StaysStranded(p, run[0], w);
      StrandedForGood(Do(p, run[0]), run[1..], w);
    }
  }

  /** One way to go on as far as it goes. */
  lemma {:induction false} Exhausted(p: Threads) returns (run: seq<Action>)
    requires Inv(p)
    ensures Legal(p, run) && Stuck(After(p, run)) && forall a :: a in run ==> Busy(a)
    decreases Measure(p)
  {
    if Stuck(p) {
      run := [];
    } else {
      var a :| Busy(a) && Enabled(p, a);
      BusyDrops(p, a);
      StepKeeps(p, a);
      var rest := Exhausted(Do(p, a));
      run := [a] + rest;
    }
  }

  lemma {:induction false} Then(p: Threads, a: Action, rest: seq<Action>)
    requires Enabled(p, a) && Legal(Do(p, a), rest)
    ensures Legal(p, [a] + rest) && After(p, [a] + rest) == After(Do(p, a), rest)
  {
    assert ([a] + rest)[1..] == rest;
  }

  /** Two threads sleep until one task is done. */
  ghost predicate TwoSleep(p: Threads) {
    && Inv(p) && p.shared.queue == [0] && p.shared.running == 0 && !p.shared.term && |p.workers| > 0
        && p.workers[0] == Awake
    && |p.waiters| >= 2 && p.waiters[0] == Sleeping && p.waiters[1] == Sleeping
  }

  /** A thread that calls `tpool_wait` while a task is queued goes to sleep. */
  lemma {:induction false} GoesToSleep(p: Threads, w: nat) returns (run: seq<Action>)
    requires p.shared.queue != [] && !p.shared.term && w < |p.waiters| && p.waiters[w] == Away
    ensures Legal(p, run) && After(p, run) == p.(waiters := p.waiters[w := Sleeping])
  {
    var p1 := Do(p, Enter(w));
    assert Do(p1, Test(w)).waiters == p.waiters[w := Sleeping];
    assert Legal(Do(p1, Test(w)), []);
    Then(p1, Test(w), []);
    Then(p, Enter(w), [Test(w)]);
    run := [Enter(w), Test(w)];
    assert run == [Enter(w)] + [Test(w)];
  }

  lemma {:induction false} TwoGoToSleep(n: nat, m: nat) returns (run: seq<Action>)
    requires n >= 1 && m >= 2
    ensures Legal(Init(n, m), run) && TwoSleep(After(Init(n, m), run))
  {
    var p0 := Init(n, m);
    var p1 := Do(p0, Add);
    var first := GoesToSleep(p1, 0);
    var second := GoesToSleep(After(p1, first), 1);
    Chain(p1, first, second);
    Then(p0, Add, first + second);
    run := [Add] + (first + second);
    InitInv(n, m);
    RunKeeps(p0, run);
  }

  lemma {:induction false} OneIsWoken(p: Threads) returns (run: seq<Action>)
    requires TwoSleep(p)
    ensures Legal(p, run) && Stranded(After(p, run), 1)
  {
    var p1 := Do(p, Look(0));
    var p2 := Do(p1, Return(0));
    run := [Look(0), Return(0), Finish(0, 0)];
    assert Legal(Do(p2, Finish(0, 0)), []);
    Then(p2, Finish(0, 0), []);
    Then(p1, Return(0), [Finish(0, 0)]);
    Then(p, Look(0), [Return(0), Finish(0, 0)]);
    RunKeeps(p, run);
  }

  /** Two threads wait for one task; the worker signals one of them, and the other is stranded. */
  lemma {:induction false} TwoWaiters(n: nat, m: nat) returns (run: seq<Action>)
    requires n >= 1 && m >= 2
    ensures Legal(Init(n, m), run) && Stranded(After(Init(n, m), run), 1)
  {
    var sleep := TwoGoToSleep(n, m);
    var wake := OneIsWoken(After(Init(n, m), sleep));
    Chain(Init(n, m), sleep, wake);
    run := sleep + wake;
  }

  /** Without workers one waiter is enough. */
  lemma {:induction false} NoWorkers(m: nat) returns (run: seq<Action>)
    requires m >= 1
    ensures Legal(Init(0, m), run) && Stuck(After(Init(0, m), run)) && After(Init(0, m), run).waiters[0] == Sleeping
  {
    run := [Add, Enter(0), Test(0)];
  }

  /** However many threads call `tpool_wait`, if they take turns every call returns: whenever the pool comes to
      rest, nobody is left in it. */
  lemma {:induction false} TakingTurns(n: nat, m: nat, run: seq<Action>, w: nat)
    requires n >= 1 && w < m && Legal(Init(n, m), run) && PoliteRun(Init(n, m), run) && Stuck(After(Init(n, m), run))
    ensures After(Init(n, m), run).waiters[w] == Away
  {
    InitInv(n, m);
    RunKeeps(Init(n, m), run);
    PoliteRunKeeps(Init(n, m), run);
    var q := After(Init(n, m), run);
    if !q.shared.term { RestsWhenDone(q); }
  }

  /** The condition "task done" is signalled, not broadcast. Every call of `tpool_wait` returns, in all runs,
      exactly when nobody calls it, or one thread does and there is a worker. */
  lemma {:induction false} OneWaiter(n: nat, m: nat)
    ensures WaitsReturn(n, m) <==> m == 0 || (m == 1 && n >= 1)
  {
    InitInv(n, m);
    if m == 1 && n >= 1 {
      forall run, w: nat | w < m && Legal(Init(n, m), run) && Stuck(After(Init(n, m), run))
          ensures After(Init(n, m), run).waiters[w] == Away {
        OneCaller(Init(n, m), run);
        TakingTurns(n, m, run, w);
      }
    } else if m >= 1 && n == 0 {
      var run := NoWorkers(m);
    } else if m >= 2 {
      var run := TwoWaiters(n, m);
      var rest := Exhausted(After(Init(n, m), run));
      StrandedForGood(After(Init(n, m), run), rest, 1);
      Chain(Init(n, m), run, rest);
    }
  }
}
