/** The threads of a pool as a step system. One action is what one thread does while it holds the mutex,
    the return of a task, a join, or a wakeup that nobody signalled. */
module ThreadPool {
  import opened Occurrences
  import opened TaskQueue

  datatype Worker =
    | Awake                    // before it takes the mutex and looks at the queue
    | Asleep                   // on the condition "task added"
    | Running(task: nat)
    | Returned(task: nat)      // the task has returned, the mutex is still to be taken
    | Exited

  /** A thread that calls `tpool_wait`: outside it, about to test, or asleep on the condition "task done". */
  datatype Waiter = Away | Testing | Sleeping

  /** The thread that calls `tpool_destroy`: not yet, joining worker number `next`, or finished. */
  datatype Destroyer = Idle | Joining(next: nat) | Gone

  /** `started`, `done`, `freed` and `swept` are logs: the tasks that a worker has taken, that have returned,
      whose node a worker has freed, and whose node the destroyer has freed. Task number k is the k-th added. */
  datatype Threads = Threads(shared: Shared, added: nat, started: seq<nat>, done: seq<nat>, freed: seq<nat>,
      swept: seq<nat>,
                       workers: seq<Worker>, waiters: seq<Waiter>, destroyer: Destroyer)

  function Init(n: nat, m: nat): Threads {
    Threads(Shared([], 0, false), 0, [], [], [], [], seq(n, _ => Awake), seq(m, _ => Away), Idle)
  }

  datatype Action =
    | Add
    | Enter(w: nat)               // waiter w calls tpool_wait
    | Test(w: nat)                // it holds the mutex and tests the loop condition
    | Look(i: nat)                // worker i holds the mutex and looks for a task
    | Return(i: nat)              // the task of worker i returns
    | Finish(i: nat, w: nat)      // worker i accounts for it, and wakes w if it signals and someone sleeps
    | Terminate
    | Join
    | Sweep                       // one round of the loop that frees what is left
    | RouseWorker(i: nat)         // spurious wakeups
    | RouseWaiter(w: nat)

  function Wake(w: Worker): Worker {
    if w == Asleep then Awake else w
  }

  function Broadcast(ws: seq<Worker>): (r: seq<Worker>)
    ensures |r| == |ws| && forall i :: 0 <= i < |ws| ==> r[i] == Wake(ws[i])
  {
    seq(|ws|, i requires 0 <= i < |ws| => Wake(ws[i]))
  }

  ghost predicate Enabled(p: Threads, a: Action) {
    match a
    case Add => !p.shared.term
    case Enter(w) => !p.shared.term && w < |p.waiters| && p.waiters[w] == Away
    case Test(w) => w < |p.waiters| && p.waiters[w] == Testing
    case Look(i) => i < |p.workers| && p.workers[i] == Awake
    case Return(i) => i < |p.workers| && p.workers[i].Running?
    case Finish(i, w) =>
      && i < |p.workers| && p.workers[i].Returned? && p.shared.running > 0
      && (Quiet(Finished(p.shared)) && Sleeping in p.waiters ==> w < |p.waiters| && p.waiters[w] == Sleeping)
    case Terminate => p.destroyer == Idle && forall w :: 0 <= w < |p.waiters| ==> p.waiters[w] == Away
    case Join => p.destroyer.Joining? && p.destroyer.next < |p.workers| && p.workers[p.destroyer.next] == Exited
    case Sweep => p.destroyer.Joining? && p.destroyer.next == |p.workers|
    case RouseWorker(i) => i < |p.workers| && p.workers[i] == Asleep
    case RouseWaiter(w) => w < |p.waiters| && p.waiters[w] == Sleeping
  }

  function LookOf(p: Threads, i: nat): Threads
    requires i < |p.workers|
  {
    match Decide(p.shared)
    case Sleep => p.(workers := p.workers[i := Asleep])
    case Exit => p.(workers := p.workers[i := Exited])
    case Take => p.(shared := Taken(p.shared), started := p.started + [p.shared.queue[0]],
        workers := p.workers[i := Running(p.shared.queue[0])])
  }

  function FinishOf(p: Threads, i: nat, w: nat): Threads
    requires i < |p.workers| && p.workers[i].Returned? && p.shared.running > 0
  {
    var s := Finished(p.shared);
    p.(shared := s, freed := p.freed + [p.workers[i].task], workers := p.workers[i := Awake],
       waiters := if Quiet(s) && w < |p.waiters| && p.waiters[w] == Sleeping then p.waiters[w := Testing]
           else p.waiters)
  }

  function SweepOf(p: Threads): Threads {
    if p.shared.queue == [] then p.(destroyer := Gone)
    else p.(shared := p.shared.(queue := p.shared.queue[1..]), swept := p.swept + [p.shared.queue[0]])
  }

  function Do(p: Threads, a: Action): Threads
    requires Enabled(p, a)
  {
    match a
    case Add => p.(shared := Added(p.shared, p.added), added := p.added + 1, workers := Broadcast(p.workers))
    case Enter(w) => p.(waiters := p.waiters[w := Testing])
    case Test(w) => p.(waiters := p.waiters[w := if Quiet(p.shared) then Away else Sleeping])
    case Look(i) => LookOf(p, i)
    case Return(i) => p.(done := p.done + [p.workers[i].task], workers := p.workers[i := Returned(p.workers[i].task)])
    case Finish(i, w) => FinishOf(p, i, w)
    case Terminate => p.(shared := Ended(p.shared), workers := Broadcast(p.workers), destroyer := Joining(0))
    case Join => p.(destroyer := Joining(p.destroyer.next + 1))
    case Sweep => SweepOf(p)
    case RouseWorker(i) => p.(workers := p.workers[i := Awake])
    case RouseWaiter(w) => p.(waiters := p.waiters[w := Testing])
  }

  // ---------- the invariant ----------

  function Upto(n: nat): (r: seq<nat>)
    ensures |r| == n && forall k :: 0 <= k < n ==> r[k] == k
  {
    seq(n, k => k)
  }

  /** How many workers hold a task. */
  function Holding(ws: seq<Worker>): nat {
    if ws == [] then 0 else Holding(ws[..|ws| - 1]) + if Holds(ws[|ws| - 1]) then 1 else 0
  }

  predicate Holds(w: Worker) {
    w.Running? || w.Returned?
  }

  /** Every task is started, swept or queued, in the order added. */
  ghost predicate Fifo(p: Threads) {
    p.started + p.swept + p.shared.queue == Upto(p.added)
  }

  /** A task has been started as often as it is done or running, and done as often as it is freed or about to be. */
  ghost predicate Ledger(p: Threads, t: nat) {
    && Times(p.started, t) == Times(p.done, t) + Times(p.workers, Running(t))
    && Times(p.done, t) == Times(p.freed, t) + Times(p.workers, Returned(t))
  }

  ghost predicate Books(p: Threads) {
    Fifo(p) && (forall t :: Ledger(p, t)) && p.shared.running == Holding(p.workers)
  }

  /** No worker sleeps through a task or through the end. */
  ghost predicate Alert(p: Threads) {
    forall i :: 0 <= i < |p.workers| ==>
      && (p.workers[i] == Asleep ==> p.shared.queue == [] && !p.shared.term)
      && (p.workers[i] == Exited ==> p.shared.term)
  }

  ghost predicate Ending(p: Threads) {
    && (p.shared.term <==> p.destroyer != Idle)
    && (p.shared.term ==> forall w :: 0 <= w < |p.waiters| ==> p.waiters[w] == Away)
    && (p.destroyer.Joining? ==> p.destroyer.next <= |p.workers| && forall i :: 0 <= i < p.destroyer.next ==>
        p.workers[i] == Exited)
    && (p.destroyer == Gone ==> p.shared.queue == [] && forall i :: 0 <= i < |p.workers| ==> p.workers[i] == Exited)
    && (p.swept != [] ==> p.destroyer == Gone || p.destroyer == Joining(|p.workers|))
  }

  ghost predicate Inv(p: Threads) {
    Books(p) && Alert(p) && Ending(p)
  }

  lemma {:induction false} HoldingMoved(ws: seq<Worker>, i: nat, w: Worker)
    requires i < |ws|
    ensures Holding(ws[i := w]) + (if Holds(ws[i]) then 1 else 0) == Holding(ws) + if Holds(w) then 1 else 0
  {
    var n := |ws| - 1;
    if i == n {
      assert ws[i := w][..n] == ws[..n];
    } else {
      assert ws[i := w][..n] == ws[..n][i := w];
      HoldingMoved(ws[..n], i, w);
    }
  }

  lemma {:induction false} BroadcastKeeps(ws: seq<Worker>, t: nat)
    ensures Times(Broadcast(ws), Running(t)) == Times(ws, Running(t))
    ensures Times(Broadcast(ws), Returned(t)) == Times(ws, Returned(t))
    ensures Holding(Broadcast(ws)) == Holding(ws)
  {
    if ws != [] {
      var n := |ws| - 1;
      assert Broadcast(ws)[..n] == Broadcast(ws[..n]);
      BroadcastKeeps(ws[..n], t);
    }
  }

  lemma {:induction false} NoneHeld(n: nat, t: nat)
    ensures var ws := seq(n, _ => Awake); Times(ws, Running(t)) == 0 && Times(ws, Returned(t)) == 0 && Holding(ws) == 0
  {
    if n > 0 {
      assert seq(n, _ => Awake)[..n - 1] == seq(n - 1, _ => Awake);
      NoneHeld(n - 1, t);
    }
  }

  lemma {:induction false} InitInv(n: nat, m: nat)
    ensures Inv(Init(n, m))
  {
    NoneHeld(n, 0);
    forall t ensures Ledger(Init(n, m), t) { NoneHeld(n, t); }
  }

  /** An action that only wakes sleeping workers or puts an idle one to sleep leaves the books alone. */
  lemma {:induction false} BooksMoved(p: Threads, q: Threads, i: nat, w: Worker)
    requires Books(p) && i < |p.workers| && !Holds(p.workers[i]) && !Holds(w)
    requires q.workers == p.workers[i := w] && q.started == p.started && q.done == p.done && q.freed == p.freed
    requires q.swept == p.swept && q.added == p.added && q.shared.queue == p.shared.queue
        && q.shared.running == p.shared.running
    ensures Books(q)
  {
    HoldingMoved(p.workers, i, w);
    forall t ensures Ledger(q, t) {
      assert Ledger(p, t);
      TimesMoved(p.workers, i, w, Running(t));
      TimesMoved(p.workers, i, w, Returned(t));
    }
  }

  lemma {:induction false} BooksBroadcast(p: Threads, q: Threads)
    requires Books(p) && Fifo(q) && q.workers == Broadcast(p.workers)
    requires q.started == p.started && q.done == p.done && q.freed == p.freed && q.shared.running == p.shared.running
    ensures Books(q)
  {
    BroadcastKeeps(p.workers, 0);
    forall t ensures Ledger(q, t) {
      assert Ledger(p, t);
      BroadcastKeeps(p.workers, t);
    }
  }

  lemma {:induction false} AddKeeps(p: Threads)
    requires Inv(p) && Enabled(p, Add)
    ensures Inv(Do(p, Add))
  {
    assert p.started + p.swept + (p.shared.queue + [p.added]) == Upto(p.added) + [p.added];
    assert Upto(p.added + 1) == Upto(p.added) + [p.added];
    BooksBroadcast(p, Do(p, Add));
  }

  lemma {:induction false} TakeBooks(p: Threads, i: nat)
    requires Inv(p) && Enabled(p, Look(i)) && Decide(p.shared) == Take
    ensures Books(Do(p, Look(i)))
  {
    var t, q := p.shared.queue[0], Do(p, Look(i));
    assert p.swept == [] && p.shared.queue == [t] + p.shared.queue[1..];
    assert p.started + [t] + p.swept + p.shared.queue[1..] == p.started + p.swept + p.shared.queue;
    HoldingMoved(p.workers, i, Running(t));
    forall u ensures Ledger(q, u) {
      assert Ledger(p, u);
      TimesAppend(p.started, t, u);
      TimesMoved(p.workers, i, Running(t), Running(u));
      TimesMoved(p.workers, i, Running(t), Returned(u));
    }
  }

  lemma {:induction false} LookKeeps(p: Threads, i: nat)
    requires Inv(p) && Enabled(p, Look(i))
    ensures Inv(Do(p, Look(i)))
  {
    if Decide(p.shared) == Take {
      TakeBooks(p, i);
    } else {
      BooksMoved(p, Do(p, Look(i)), i, if p.shared.term then Exited else Asleep);
    }
  }

  lemma {:induction false} ReturnKeeps(p: Threads, i: nat)
    requires Inv(p) && Enabled(p, Return(i))
    ensures Inv(Do(p, Return(i)))
  {
    var t, q := p.workers[i].task, Do(p, Return(i));
    HoldingMoved(p.workers, i, Returned(t));
    forall u ensures Ledger(q, u) {
      assert Ledger(p, u);
      TimesAppend(p.done, t, u);
      TimesMoved(p.workers, i, Returned(t), Running(u));
      TimesMoved(p.workers, i, Returned(t), Returned(u));
    }
  }

  lemma {:induction false} FinishBooks(p: Threads, i: nat, w: nat)
    requires Inv(p) && Enabled(p, Finish(i, w))
    ensures Books(Do(p, Finish(i, w)))
  {
    var t, q := p.workers[i].task, Do(p, Finish(i, w));
    HoldingMoved(p.workers, i, Awake);
    forall u ensures Ledger(q, u) {
      assert Ledger(p, u);
      TimesAppend(p.freed, t, u);
      TimesMoved(p.workers, i, Awake, Running(u));
      TimesMoved(p.workers, i, Awake, Returned(u));
    }
  }

  lemma {:induction false} FinishKeeps(p: Threads, i: nat, w: nat)
    requires Inv(p) && Enabled(p, Finish(i, w))
    ensures Inv(Do(p, Finish(i, w)))
  {
    FinishBooks(p, i, w);
  }

  lemma {:induction false} TerminateKeeps(p: Threads)
    requires Inv(p) && Enabled(p, Terminate)
    ensures Inv(Do(p, Terminate))
  {
    BooksBroadcast(p, Do(p, Terminate));
  }

  lemma {:induction false} SweepKeeps(p: Threads)
    requires Inv(p) && Enabled(p, Sweep)
    ensures Inv(Do(p, Sweep))
  {
    var q := Do(p, Sweep);
    forall t ensures Ledger(q, t) { assert Ledger(p, t); }
    if p.shared.queue != [] {
      var t := p.shared.queue[0];
      assert p.shared.queue == [t] + p.shared.queue[1..];
      assert p.started + (p.swept + [t]) + p.shared.queue[1..] == p.started + p.swept + p.shared.queue;
    }
  }

  lemma {:induction false} RouseKeeps(p: Threads, i: nat)
    requires Inv(p) && Enabled(p, RouseWorker(i))
    ensures Inv(Do(p, RouseWorker(i)))
  {
    BooksMoved(p, Do(p, RouseWorker(i)), i, Awake);
  }

  /** The actions of a waiter, and a join, touch neither books nor workers. */
  lemma {:induction false} SideKeeps(p: Threads, a: Action)
    requires Inv(p) && Enabled(p, a) && (a.Enter? || a.Test? || a.Join? || a.RouseWaiter?)
    ensures Inv(Do(p, a))
  {
    var q := Do(p, a);
    forall t ensures Ledger(q, t) { assert Ledger(p, t); }
  }

  /** Every action keeps the invariant, whoever takes it. */
  lemma {:induction false} StepKeeps(p: Threads, a: Action)
    requires Inv(p) && Enabled(p, a)
    ensures Inv(Do(p, a))
  {
    if a.Add? { AddKeeps(p); }
    else if a.Look? { LookKeeps(p, a.i); }
    else if a.Return? { ReturnKeeps(p, a.i); }
    else if a.Finish? { FinishKeeps(p, a.i, a.w); }
    else if a.Terminate? { TerminateKeeps(p); }
    else if a.Sweep? { SweepKeeps(p); }
    else if a.RouseWorker? { RouseKeeps(p, a.i); }
    else { SideKeeps(p, a); }
  }

  // ---------- waiters that take turns ----------

  /** At most one thread is in `tpool_wait`. */
  ghost predicate Alone(p: Threads) {
    forall v, w :: 0 <= v < |p.waiters| && 0 <= w < |p.waiters| && p.waiters[v] != Away && p.waiters[w] != Away ==>
      v == w
  }

  /** And if it sleeps it has something to wait for. */
  ghost predicate Attended(p: Threads) {
    Alone(p) && forall w :: 0 <= w < |p.waiters| && p.waiters[w] == Sleeping ==> !Quiet(p.shared)
  }

  /** Nobody calls `tpool_wait` while somebody else is in it. */
  ghost predicate Polite(p: Threads, a: Action) {
    a.Enter? ==> forall w :: 0 <= w < |p.waiters| ==> p.waiters[w] == Away
  }

  /** No wakeup of a waiter is lost as long as callers take turns, however many they are. */
  lemma {:induction false} PoliteKeeps(p: Threads, a: Action)
    requires Inv(p) && Attended(p) && Enabled(p, a) && Polite(p, a)
    ensures Attended(Do(p, a))
  {
    if a.Finish? {
      forall w | 0 <= w < |p.waiters| && p.waiters[w] == Sleeping ensures Sleeping in p.waiters {}
    } else if a.Look? {
      assert Do(p, a) == LookOf(p, a.i);
    }
  }
}
