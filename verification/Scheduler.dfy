/** The scheduler and the thread programs as they change the queues, the control blocks and the bank in place. */
module Scheduler {
  import opened GreenThreads
  import opened SchedulerInvariant
  import opened SchedulerRuns

  const THREAD_MAX := 16

  /** A thread's control block: its program counter stands for the saved environment. */
  class Tcb {
    const id: int
    const kind: Kind
    const arg: int
    var pc: Pc
    var i: int
    var x: int
    var y: int

    /** i, x and y are left as they come. */
    constructor (kind: Kind, id: int, arg: int)
      ensures this.kind == kind && this.id == id && this.arg == arg && pc == Fresh
    {
      this.kind, this.id, this.arg, pc := kind, id, arg, Fresh;
    }

    ghost function Of(): Thread
      reads this
    {
      Thread(id, kind, arg, pc, i, x, y)
    }

    /** One round of the loop in `fibonacci`; the result is the number it prints. */
    method NextFibonacci() returns (number: int)
      modifies this
      ensures Of() == FibonacciTurn(old(Of())) && number == y
    {
      if pc == Fresh { i := 1; } else { i := i + 1; }
      pc := Looping;
      if i <= 2 {
        x, y := 1, 1;
      } else {
        var tmp := y;
        y := x + y;
        x := tmp;
      }
      number := y;
    }

    /** One round of the loop in `factorial`. */
    method NextFactorial() returns (number: int)
      modifies this
      ensures Of() == FactorialTurn(old(Of())) && number == x
    {
      if pc == Fresh { x, i := 1, 1; } else { i := i + 1; }
      pc := Looping;
      x := x * i;
      number := x;
    }
  }

  class Threads {
    const readyQueue: array<Tcb?>
    const waitingQueue: array<Tcb?>
    var rqSize: nat
    var rqCurrent: nat
    var wqSize: nat
    var lockOwner: int
    var balance: int
    var printed: seq<Line>
    ghost var state: Machine
    ghost var threads: set<Tcb>

    /** Ready slots are non-null exactly below rqSize, and no thread is in two of them. */
    ghost predicate ReadyOk()
      reads this, readyQueue
    {
      && readyQueue.Length == THREAD_MAX && rqSize <= THREAD_MAX
      && (forall k :: 0 <= k < THREAD_MAX ==> (readyQueue[k] != null <==> k < rqSize))
      && (forall k :: 0 <= k < rqSize ==> readyQueue[k] in threads)
      && (forall j, k :: 0 <= j < k < rqSize ==> readyQueue[j] != readyQueue[k])
    }

    ghost predicate WaitingOk()
      reads this, waitingQueue
    {
      && waitingQueue.Length == THREAD_MAX && wqSize <= THREAD_MAX
      && (forall k :: 0 <= k < wqSize ==> waitingQueue[k] != null && waitingQueue[k] in threads)
      && (forall j, k :: 0 <= j < k < wqSize ==> waitingQueue[j] != waitingQueue[k])
    }

    /** Fewer threads than slots, each in one slot of one queue. */
    ghost predicate Slots()
      reads this, readyQueue, waitingQueue
    {
      && readyQueue != waitingQueue && ReadyOk() && WaitingOk() && rqSize + wqSize < THREAD_MAX
      && (forall j, k :: 0 <= j < rqSize && 0 <= k < wqSize ==> readyQueue[j] != waitingQueue[k])
    }

    /** The objects show the state. */
    ghost predicate Shown()
      requires Slots()
      reads this, readyQueue, waitingQueue, threads
    {
      && |state.ready| == rqSize && |state.waiting| == wqSize && state.cur == rqCurrent
      && state.owner == lockOwner && state.balance == balance && state.log == printed
      && (forall k :: 0 <= k < rqSize ==> readyQueue[k].Of() == state.ready[k])
      && (forall k :: 0 <= k < wqSize ==> waitingQueue[k].Of() == state.waiting[k])
    }

    ghost predicate Valid()
      reads this, readyQueue, waitingQueue, threads
    {
      Slots() && Shown()
    }

    constructor (balance: int)
      ensures Valid() && state == Start([], balance) && threads == {} && fresh(readyQueue) && fresh(waitingQueue)
    {
      readyQueue := new Tcb?[THREAD_MAX](_ => null);
      waitingQueue := new Tcb?[THREAD_MAX](_ => null);
      rqSize, rqCurrent, wqSize := 0, 0, 0;
      lockOwner, this.balance, printed, state, threads := NOBODY, balance, [], Start([], balance), {};
    }

    /** `thread_setup`: a new thread at the end of the ready queue. */
    method ThreadSetup(kind: Kind, id: int, arg: int)
      requires Valid() && rqSize + wqSize + 1 < THREAD_MAX
      modifies this`rqSize, this`state, this`threads, readyQueue
      ensures Valid() && fresh(threads - old(threads)) && |state.ready| == |old(state).ready| + 1
      ensures var t := state.ready[|old(state).ready|];
              && t.kind == kind && t.id == id && t.arg == arg && t.pc == Fresh
              && state == old(state).(ready := old(state).ready + [t])
    {
      var t := new Tcb(kind, id, arg);
      readyQueue[rqSize] := t;
      rqSize := rqSize + 1;
      threads := threads + {t};
      state := state.(ready := state.ready + [t.Of()]);
    }

    /** The first entry of `scheduler`: the sizes are counted afresh. */
    method Begin() returns (running: bool)
      requires Valid() && wqSize == 0
      modifies this`rqSize, this`rqCurrent, this`wqSize, this`state
      ensures Valid() && running == (rqSize > 0) && state == if running then old(state).(cur := 0) else old(state)
    {
      rqSize, wqSize := 0, 0;
      while readyQueue[rqSize] != null
        invariant rqSize <= old(rqSize)
        invariant wqSize == 0 && rqCurrent == old(rqCurrent) && state == old(state)
        decreases THREAD_MAX - rqSize
      {
        rqSize := rqSize + 1;
      }
      running := rqSize > 0;
      if running {
        rqCurrent := 0;
        state := state.(cur := 0);
      }
    }

    /** The hand-off in `scheduler`: the first waiting thread becomes ready, the others move up. */
    method HandOff()
      requires Valid()
      modifies this`lockOwner, this`rqSize, this`wqSize, this`state, readyQueue, waitingQueue
      ensures Valid() && state == GreenThreads.HandOff(old(state))
    {
      ghost var m := state;
      state := GreenThreads.HandOff(m);
      if lockOwner == NOBODY && wqSize > 0 {
        var first := waitingQueue[0];
        lockOwner := first.id;
        readyQueue[rqSize] := first;
        rqSize := rqSize + 1;
        MoveUp();
        assert forall k :: 0 <= k < wqSize ==> state.waiting[k] == m.waiting[k + 1];
      }
    }

    method MoveUp()
      requires readyQueue != waitingQueue && waitingQueue.Length == THREAD_MAX && 0 < wqSize <= THREAD_MAX
      modifies waitingQueue, this`wqSize
      ensures wqSize == old(wqSize) - 1
      ensures forall k :: 0 <= k < wqSize ==> waitingQueue[k] == old(waitingQueue[..])[k + 1]
    {
      var i := 0;
      while i <= wqSize - 2
        invariant 0 <= i <= wqSize - 1 && wqSize == old(wqSize)
        invariant forall k :: 0 <= k < i ==> waitingQueue[k] == old(waitingQueue[..])[k + 1]
        invariant forall k :: i <= k < THREAD_MAX ==> waitingQueue[k] == old(waitingQueue[..])[k]
      {
        waitingQueue[i] := waitingQueue[i + 1];
        i := i + 1;
      }
      wqSize := wqSize - 1;
    }

    /** The running thread leaves its slot, to the last ready thread. */
    method DropRunning()
      requires ReadyOk() && rqCurrent < rqSize
      modifies this`rqSize, this`rqCurrent, readyQueue
      ensures ReadyOk() && rqSize == old(rqSize) - 1
      ensures rqCurrent == if old(rqCurrent) < rqSize then old(rqCurrent) else 0
      ensures forall k :: 0 <= k < rqSize ==> readyQueue[k] == old(readyQueue[..])[if k == old(rqCurrent) then rqSize
          else k]
    {
      if rqCurrent < rqSize - 1 {
        readyQueue[rqCurrent] := readyQueue[rqSize - 1];
      } else {
        rqCurrent := 0;
      }
      readyQueue[rqSize - 1] := null;
      rqSize := rqSize - 1;
    }

    /** The running thread joins the end of the waiting queue and leaves the ready one. */
    method MoveToWaiting()
      requires Slots() && rqCurrent < rqSize
      modifies this`rqSize, this`rqCurrent, this`wqSize, readyQueue, waitingQueue
      ensures Slots() && rqSize == old(rqSize) - 1 && wqSize == old(wqSize) + 1
      ensures rqCurrent == if old(rqCurrent) < rqSize then old(rqCurrent) else 0
      ensures forall k :: 0 <= k < rqSize ==> readyQueue[k] == old(readyQueue[..])[if k == old(rqCurrent) then rqSize
          else k]
      ensures forall k :: 0 <= k < wqSize - 1 ==> waitingQueue[k] == old(waitingQueue[..])[k]
      ensures waitingQueue[wqSize - 1] == old(readyQueue[rqCurrent])
    {
      waitingQueue[wqSize] := readyQueue[rqCurrent];
      wqSize := wqSize + 1;
      DropRunning();
    }

    method Block()
      requires Valid() && rqCurrent < rqSize
      modifies this`rqSize, this`rqCurrent, this`wqSize, this`state, readyQueue, waitingQueue
      ensures Valid() && state == GreenThreads.DropRunning(old(state).(waiting := old(state).waiting
          + [old(state).ready[old(state).cur]]))
    {
      MoveToWaiting();
      state := GreenThreads.DropRunning(state.(waiting := state.waiting + [state.ready[state.cur]]));
    }

    method Exit()
      requires Valid() && rqCurrent < rqSize
      modifies this`rqSize, this`rqCurrent, this`state, readyQueue
      ensures Valid() && state == GreenThreads.DropRunning(old(state))
    {
      DropRunning();
      state := GreenThreads.DropRunning(state);
    }

    /** An entry of `scheduler` from a yield, a block or an exit: either it returns, or the thread in the
        current slot runs. */
    method Schedule(how: Outcome) returns (running: bool)
      requires Valid() && rqCurrent < rqSize
      modifies this`lockOwner, this`rqSize, this`rqCurrent, this`wqSize, this`state, readyQueue, waitingQueue
      ensures Valid() && state == GreenThreads.Schedule(old(state), how) && running == (rqSize > 0)
    {
      HandOff();
      if how == Blocks {
        Block();
      } else if how == Exits {
        Exit();
      } else {
        rqCurrent := (rqCurrent + 1) % rqSize;
        state := state.(cur := rqCurrent);
      }
      running := rqSize > 0;
    }

    // ---------- the thread programs ----------

    /** A round of the loop in `fibonacci` or in `factorial`. */
    method LoopTurn() returns (how: Outcome)
      requires Valid() && rqCurrent < rqSize && readyQueue[rqCurrent].kind != Bank
      modifies this`printed, this`state, readyQueue[rqCurrent]
      ensures Valid() && how == OutcomeOf(old(state)) && state == Turn(old(state))
    {
      var running := readyQueue[rqCurrent];
      var number;
      if running.kind == Fibonacci {
        number := running.NextFibonacci();
      } else {
        number := running.NextFactorial();
      }
      printed := printed + [Value(running.id, number)];
      how := if running.i == running.arg then Exits else Yields;
      state := Turn(state);
    }

    /** `lock`: the result says whether the thread has to wait. */
    method Lock() returns (blocked: bool)
      requires Slots() && rqCurrent < rqSize
      modifies this`lockOwner
      ensures blocked == (old(lockOwner) != NOBODY) && lockOwner == if blocked then old(lockOwner)
          else readyQueue[rqCurrent].id
    {
      blocked := lockOwner != NOBODY;
      if !blocked { lockOwner := readyQueue[rqCurrent].id; }
    }

    method Unlock()
      requires Slots() && rqCurrent < rqSize
      modifies this`lockOwner
      ensures lockOwner == if old(lockOwner) == readyQueue[rqCurrent].id then NOBODY else old(lockOwner)
    {
      if lockOwner == readyQueue[rqCurrent].id { lockOwner := NOBODY; }
    }

    /** The start of `bank_operation`. */
    method Ask() returns (how: Outcome)
      requires Valid() && rqCurrent < rqSize && readyQueue[rqCurrent].kind == Bank && readyQueue[rqCurrent].pc == Fresh
      modifies this`printed, this`lockOwner, this`state, readyQueue[rqCurrent]
      ensures Valid() && how == OutcomeOf(old(state)) && state == Turn(old(state))
    {
      var running := readyQueue[rqCurrent];
      var blocked := Lock();
      if blocked {
        how := Blocks;
        running.pc := Locked;
      } else {
        how := Yields;
        printed := printed + [Acquired(running.id)];
        running.pc := Step2;
      }
      state := Turn(state);
    }

    /** The second step of `bank_operation`. */
    method Update()
      requires Valid() && rqCurrent < rqSize && readyQueue[rqCurrent].kind == Bank && readyQueue[rqCurrent].pc == Step2
      modifies this`printed, this`balance, this`state, readyQueue[rqCurrent]
      ensures Valid() && OutcomeOf(old(state)) == Yields && state == Turn(old(state))
      ensures var n := old(readyQueue[rqCurrent].arg);
        old(balance) >= 0 ==> balance == if old(balance) + n >= 0 then old(balance) + n else old(balance)
    {
      var running := readyQueue[rqCurrent];
      var before, n := balance, running.arg;
      if n > 0 || (n < 0 && balance + n >= 0) { balance := balance + n; }
      printed := printed + [Balance(running.id, before, balance)];
      running.pc := Step3;
      state := Turn(state);
    }

    /** The third step of `bank_operation`. */
    method Release()
      requires Valid() && rqCurrent < rqSize && readyQueue[rqCurrent].kind == Bank && readyQueue[rqCurrent].pc == Step3
      modifies this`printed, this`lockOwner, this`state
      ensures Valid() && OutcomeOf(old(state)) == Exits && state == Turn(old(state))
    {
      Unlock();
      printed := printed + [Released(readyQueue[rqCurrent].id)];
      state := Turn(state);
    }

    /** The rest of `bank_operation`, from where it resumes. */
    method Hold() returns (how: Outcome)
      requires Valid() && rqCurrent < rqSize && readyQueue[rqCurrent].kind == Bank && readyQueue[rqCurrent].pc != Fresh
      modifies this`printed, this`balance, this`lockOwner, this`state, readyQueue[rqCurrent]
      ensures Valid() && how == OutcomeOf(old(state)) && state == Turn(old(state))
    {
      how := Yields;
      if readyQueue[rqCurrent].pc == Step2 {
        Update();
      } else if readyQueue[rqCurrent].pc == Step3 {
        Release();
        how := Exits;
      } else {
        var running := readyQueue[rqCurrent];
        printed := printed + [Acquired(running.id)];
        running.pc := Step2;
        state := Turn(state);
      }
    }

    /** A turn of the running thread; at a yield the signal decides whether it is switched. */
    method Step(signal: bool)
      requires Valid() && rqCurrent < rqSize
      modifies this`printed, this`balance, this`lockOwner, this`rqSize, this`rqCurrent, this`wqSize, this`state
      modifies readyQueue, waitingQueue, threads
      ensures Valid() && state == GreenThreads.Step(old(state), signal)
    {
      var how;
      if readyQueue[rqCurrent].kind != Bank {
        how := LoopTurn();
      } else if readyQueue[rqCurrent].pc == Fresh {
        how := Ask();
      } else {
        how := Hold();
      }
      if how != Yields || signal {
        var running := Schedule(how);
      }
    }

    /** A whole run, one signal entry for each turn, until the entries or the threads run out. */
    method Run(signals: seq<bool>) returns (turns: nat)
      requires Valid() && Inv(state)
      modifies this`printed, this`balance, this`lockOwner, this`rqSize, this`rqCurrent, this`wqSize, this`state
      modifies readyQueue, waitingQueue, threads
      ensures Valid() && Reached(old(state), signals, turns, state)
      ensures turns < |signals| ==> state.ready == [] && state.waiting == []
    {
      turns := 0;
      while turns < |signals| && rqSize > 0
        invariant Valid() && Reached(old(state), signals, turns, state)
        decreases |signals| - turns
      {
        ReachedOn(old(state), signals, turns, state);
        Step(signals[turns]);
        turns := turns + 1;
      }
    }
  }
}
