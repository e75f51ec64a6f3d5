/** The part of a thread pool that its mutex protects: the linked queue of tasks, the count of running
    threads and the termination flag. Every method of Pool is what one thread does while it holds the mutex. */
module TaskQueue {

  // ---------- what the critical sections compute ----------

  datatype Shared = Shared(queue: seq<nat>, running: nat, term: bool)

  /** What a worker that holds the mutex has to do next. */
  datatype Verdict = Sleep | Exit | Take

  function Decide(s: Shared): Verdict {
    if s.term then Exit else if s.queue == [] then Sleep else Take
  }

  function Added(s: Shared, task: nat): Shared {
    s.(queue := s.queue + [task])
  }

  function Taken(s: Shared): Shared
    requires s.queue != []
  {
    s.(queue := s.queue[1..], running := s.running + 1)
  }

  function Finished(s: Shared): Shared
    requires s.running > 0
  {
    s.(running := s.running - 1)
  }

  /** Nothing is queued and nothing runs: what `tpool_wait` waits for. */
  predicate Quiet(s: Shared) {
    s.queue == [] && s.running == 0
  }

  function Ended(s: Shared): Shared {
    s.(term := true)
  }

  // ---------- the heap ----------

  const NULL_FUNC := 0

  class Task {
    const func: nat
    const arg: nat
    ghost const number: nat
    var next: Task?

    constructor (func: nat, arg: nat, ghost number: nat)
      ensures this.func == func && this.arg == arg && this.number == number && next == null
    {
      this.func, this.arg, this.number, next := func, arg, number, null;
    }
  }

  ghost function Numbers(nodes: seq<Task>): (r: seq<nat>)
    ensures |r| == |nodes| && forall i :: 0 <= i < |nodes| ==> r[i] == nodes[i].number
  {
    seq(|nodes|, i requires 0 <= i < |nodes| => nodes[i].number)
  }

  /** `taskAdded` and `taskDone` are the two condition variables: the threads asleep on them. `live` are the
      nodes that have been allocated and not yet freed. */
  class Pool {
    var tasksHead: Task?
    var tasksTail: Task?
    var runningCount: nat
    var term: bool
    var taskAdded: set<nat>
    var taskDone: set<nat>
    ghost var nodes: seq<Task>
    ghost var live: set<Task>

    ghost function Node(i: int): Task?
      reads this
    {
      if 0 <= i < |nodes| then nodes[i] else null
    }

    /** The nodes form one chain from the head; the tail pointer is its last node, or null with the head. */
    ghost predicate Valid()
      reads this, nodes
    {
      && tasksHead == Node(0)
      && tasksTail == Node(|nodes| - 1)
      && (forall i :: 0 <= i < |nodes| ==> nodes[i] in live && nodes[i].next == Node(i + 1))
      && (forall i, j :: 0 <= i < j < |nodes| ==> nodes[i] != nodes[j])
    }

    ghost function View(): Shared
      reads this, nodes
    {
      Shared(Numbers(nodes), runningCount, term)
    }

    constructor ()
      ensures Valid() && View() == Shared([], 0, false) && nodes == [] && live == {} && taskAdded == {}
          && taskDone == {}
    {
      tasksHead, tasksTail, runningCount, term, nodes, live := null, null, 0, false, [], {};
      taskAdded, taskDone := {}, {};
    }

    /** `tpool_add`: a call without a function does nothing. Every sleeping worker is woken. */
    method Add(func: nat, arg: nat, ghost number: nat)
      requires Valid()
      modifies this`tasksHead, this`tasksTail, this`taskAdded, this`nodes, this`live, nodes
      ensures Valid()
      ensures func == NULL_FUNC ==>
        nodes == old(nodes) && live == old(live) && View() == old(View()) && taskAdded == old(taskAdded)
      ensures func != NULL_FUNC ==> View() == Added(old(View()), number) && taskAdded == {}
      ensures func != NULL_FUNC ==>
        && |nodes| == |old(nodes)| + 1 && nodes[..|old(nodes)|] == old(nodes)
            && live == old(live) + {nodes[|old(nodes)|]}
        && fresh(nodes[|old(nodes)|]) && nodes[|old(nodes)|].func == func && nodes[|old(nodes)|].arg == arg
    {
      if func == NULL_FUNC { return; }
      var task := new Task(func, arg, number);
      if tasksHead == null {
        tasksHead, tasksTail := task, task;
      } else {
        tasksTail.next := task;
        tasksTail := tasksTail.next;
      }
      nodes, live := nodes + [task], live + {task};
      taskAdded := {};
    }

    /** Worker i between taking the mutex and either falling asleep, leaving or starting a task. */
    method WorkerSection(i: nat) returns (verdict: Verdict, task: Task?)
      requires Valid()
      modifies this`tasksHead, this`tasksTail, this`runningCount, this`taskAdded, this`nodes
      ensures Valid() && verdict == Decide(old(View()))
      ensures taskAdded == old(taskAdded) + if verdict == Sleep then {i} else {}
      ensures verdict != Take ==> task == null && nodes == old(nodes) && View() == old(View())
      ensures verdict == Take ==>
        |old(nodes)| > 0 && task == old(nodes)[0] && nodes == old(nodes)[1..] && View() == Taken(old(View()))
            && task in live && task !in nodes
    {
      task := null;
      if !term && tasksHead == null {
        verdict := Sleep;
        taskAdded := taskAdded + {i};
      } else if term {
        verdict := Exit;
      } else {
        verdict := Take;
        task := tasksHead;
        tasksHead := tasksHead.next;
        if tasksHead == null { tasksTail := null; }
        runningCount := runningCount + 1;
        nodes := nodes[1..];
      }
    }

    /** A worker whose task has returned frees the node; if nothing is left to do it wakes one waiter. */
    method FinishSection(task: Task) returns (signal: bool)
      requires Valid() && runningCount > 0 && task in live && task !in nodes
      modifies this`runningCount, this`taskDone, this`live
      ensures Valid() && View() == Finished(old(View())) && signal == Quiet(View()) && live == old(live) - {task}
      ensures signal && old(taskDone) != {} ==> exists w :: w in old(taskDone) && taskDone == old(taskDone) - {w}
      ensures !signal || old(taskDone) == {} ==> taskDone == old(taskDone)
    {
      live := live - {task};
      runningCount := runningCount - 1;
      signal := tasksHead == null && runningCount == 0;
      if signal && taskDone != {} {
        var w :| w in taskDone;
        taskDone := taskDone - {w};
      }
    }

    /** The test of the loop in `tpool_wait`, by thread w. */
    method WaitTest(w: nat) returns (sleep: bool)
      requires Valid()
      modifies this`taskDone
      ensures Valid() && sleep == !Quiet(View()) && taskDone == old(taskDone) + if sleep then {w} else {}
    {
      sleep := tasksHead != null || runningCount != 0;
      if sleep { taskDone := taskDone + {w}; }
    }

    /** Every sleeping worker is woken to leave. */
    method Terminate()
      requires Valid()
      modifies this`term, this`taskAdded
      ensures Valid() && View() == Ended(old(View())) && taskAdded == {}
    {
      term := true;
      taskAdded := {};
    }

    /** The loop of `tpool_destroy`: every node that is left is freed, in order, each once. */
    method FreeLeftovers() returns (freed: seq<Task>)
      requires Valid()
      modifies this`live
      ensures freed == nodes && live == old(live) - (set t | t in nodes)
    {
      freed := [];
      var task := tasksHead;
      while task != null
        invariant |freed| <= |nodes| && freed == nodes[..|freed|] && task == Node(|freed|)
        invariant live == old(live) - (set t | t in freed)
        decreases |nodes| - |freed|
      {
        assert task in live;
        var next := task.next;
        live := live - {task};
        freed := freed + [task];
        task := next;
      }
    }
  }
}
