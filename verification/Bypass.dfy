/** How long a ready thread can be overtaken: the distance it still has to go in the ready queue. */
module Bypass {
  import opened GreenThreads
  import opened SchedulerInvariant

  /** The place of a thread in a queue, or the length of the queue. */
  function Place(ts: seq<Thread>, id: int): (p: nat)
    ensures p <= |ts| && (p < |ts| ==> ts[p].id == id)
    ensures forall k :: 0 <= k < p ==> ts[k].id != id
    decreases |ts|
  {
    if ts == [] then 0 else if ts[0].id == id then 0 else 1 + Place(ts[1..], id)
  }

  /** How many places the scheduler has to go, around the queue, to get from the running thread to this one. */
  function Distance(m: Machine, id: int): nat {
    var p := Place(m.ready, id);
    if p >= m.cur then p - m.cur else p + |m.ready| - if m.cur < |m.ready| then m.cur else |m.ready|
  }

  lemma {:induction false} PlaceIs(ts: seq<Thread>, k: nat)
    requires Distinct(ts) && k < |ts|
    ensures Place(ts, ts[k].id) == k
  {
  }

  lemma {:induction false} Around(c: nat, n: nat)
    requires c < n
    ensures (c + 1) % n == if c == n - 1 then 0 else c + 1
  {
  }

  /** A switch brings a waiting thread one place closer. */
  lemma {:induction false} SwitchCloser(m: Machine, id: int)
    requires Turned(m, Yields) && Present(m.ready, id) && m.ready[m.cur].id != id
    ensures Distance(Schedule(m, Yields), id) == Distance(m, id) - 1
  {
    var n := Schedule(m, Yields);
    Around(m.cur, |m.ready|);
    assert n.ready == m.ready && n.cur == if m.cur == |m.ready| - 1 then 0 else m.cur + 1;
    OneOn(m, n, id);
  }

  lemma {:induction false} OneOn(m: Machine, n: Machine, id: int)
    requires m.cur < |m.ready| && Present(m.ready, id) && m.ready[m.cur].id != id
    requires n.ready == m.ready && n.cur == if m.cur == |m.ready| - 1 then 0 else m.cur + 1
    ensures Distance(n, id) == Distance(m, id) - 1
  {
  }

  lemma {:induction false} DropNotFurther(m: Machine, id: int)
    requires Distinct(m.ready) && m.cur < |m.ready| && Present(m.ready, id) && m.ready[m.cur].id != id
    ensures Present(DropRunning(m).ready, id) && Distance(DropRunning(m), id) <= Distance(m, id)
  {
    Dropped(m);
    var d, k := DropRunning(m), Place(m.ready, id);
    assert d.ready[NewPlace(m, k)].id == id;
    DropDistinct(m);
    PlaceIs(d.ready, NewPlace(m, k));
  }

  lemma {:induction false} DropDistinct(m: Machine)
    requires Distinct(m.ready) && m.cur < |m.ready|
    ensures Distinct(DropRunning(m).ready)
  {
    Dropped(m);
  }

  lemma {:induction false} HandOverNotFurther(m: Machine, id: int)
    requires Turned(m, Exits) && m.owner == NOBODY && m.waiting != [] && Present(m.ready, id) && m.ready[m.cur].id != id
    ensures Present(Schedule(m, Exits).ready, id) && Distance(Schedule(m, Exits), id) == Distance(m, id)
  {
    HandsOver(m);
    var n, k := Schedule(m, Exits), Place(m.ready, id);
    assert n.ready[k].id == id;
    HandOverKeeps(m);
    PlaceIs(n.ready, k);
  }

  /** The scheduler never moves a ready thread further away, although it fills a gap with the last thread of
      the queue; a switch moves it closer. */
  lemma {:induction false} NeverFurther(m: Machine, how: Outcome, id: int)
    requires Turned(m, how) && Present(m.ready, id) && m.ready[m.cur].id != id
    ensures Present(Schedule(m, how).ready, id)
    ensures Distance(Schedule(m, how), id) <= Distance(m, id) - if how == Yields then 1 else 0
  {
    if how == Yields { SwitchCloser(m, id); }
    else if how == Exits && m.owner == NOBODY && m.waiting != [] { HandOverNotFurther(m, id); }
    else { DropNotFurther(m, id); }
  }

  lemma {:induction false} TurnStays(m: Machine, id: int)
    requires Inv(m) && m.cur < |m.ready| && Present(m.ready, id) && m.ready[m.cur].id != id
    ensures var n := Turn(m);
            && Turned(n, OutcomeOf(m)) && Present(n.ready, id) && n.cur < |n.ready| && n.ready[n.cur].id != id
                && Distance(n, id) == Distance(m, id)
  {
    if m.ready[m.cur].kind == Bank { BankTurns(m); } else { LoopTurns(m); }
    var n, k := Turn(m), Place(m.ready, id);
    assert n.ready[k].id == id;
    PlaceIs(n.ready, k);
  }

  /** Thread id is ready all along, and is not the one to run before the end of the run. */
  ghost predicate PassedOver(m: Machine, run: seq<bool>, id: int)
    requires Legal(m, run)
    decreases |run|
  {
    run == [] || (Present(m.ready, id) && m.ready[m.cur].id != id && PassedOver(Step(m, run[0]), run[1..], id))
  }

  /** The switches of a run: yields at which a signal was pending. */
  ghost function Switches(m: Machine, run: seq<bool>): nat
    requires Legal(m, run)
    decreases |run|
  {
    if run == [] then 0 else (if OutcomeOf(m) == Yields && run[0] then 1 else 0) + Switches(Step(m, run[0]), run[1..])
  }

  /** Bounded bypass: while a ready thread is passed over there are fewer switches than the queue is long,
      whatever blocks and exits come in between. */
  lemma {:induction false} BoundedBypass(m: Machine, run: seq<bool>, id: int)
    requires Inv(m) && Legal(m, run) && Present(m.ready, id) && PassedOver(m, run, id)
    ensures Present(After(m, run).ready, id)
    ensures Distance(After(m, run), id) + Switches(m, run) <= Distance(m, id) < |m.ready|
    decreases |run|
  {
    assert Place(m.ready, id) < |m.ready|;
    if run != [] {
      TurnStays(m, id);
      StepKeeps(m, run[0]);
      if OutcomeOf(m) != Yields || run[0] { NeverFurther(Turn(m), OutcomeOf(m), id); }
      BoundedBypass(Step(m, run[0]), run[1..], id);
    }
  }
}
