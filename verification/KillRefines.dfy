/** `kill`, run by processes and pipes, refines removal of a subtree. */
module KillRefines {
  import opened ServiceTree
  import opened ServiceMachine
  import opened ServiceMeasure

  /** All the descendants of t are gone and t waits for permission to exit, or is gone itself. */
  ghost function Alone(t: Tree, pc: Pc): Proc {
    Proc(t.name, t.secret, pc, [])
  }

  ghost predicate DyingKid(ts: seq<Tree>, k: nat, kids: seq<Link>, acc: nat) {
    k < |ts| && Still(kids, ts[k..], 0) && acc == SizeAll(ts[..k + 1]) % 256
  }

  /** Subtree t terminates; k of its children are gone already. */
  ghost predicate Dying(l: Link, t: Tree, rest: seq<Down>)
    decreases t
  {
    var kids := l.proc.kids;
    && l.down == rest && l.up == [] && l.proc.name == t.name && l.proc.secret == t.secret
    && |kids| <= |t.kids|
    && var k := |t.kids| - |kids|;
    (match l.proc.pc
     case TermSend(acc) => kids != [] && Still(kids, t.kids[k..], -1) && acc == SizeAll(t.kids[..k]) % 256
     case TermAwait(acc) =>
       && kids != [] && Still(kids, t.kids[k..], 0) && acc == SizeAll(t.kids[..k]) % 256
       && (kids[0] == Link([Line(Killall)], [], Rest(t.kids[k])) || Dying(kids[0], t.kids[k], [])
           || Dead(kids[0], t.kids[k], []))
     case TermAgree(acc) => DyingKid(t.kids, k, kids, acc) && kids[0] == Link([], [], Alone(t.kids[k], TermWait))
     case TermReap(acc) =>
       && DyingKid(t.kids, k, kids, acc)
       && (kids[0] == Link([Agree], [], Alone(t.kids[k], TermWait))
           || kids[0] == Link([], [], Alone(t.kids[k], Pc.Dead)))
     case TermReply(acc) => kids == [] && acc == (Size(t) - 1) % 256
     case _ => false)
  }

  /** Subtree t has reported its descendants. The Manager just exits. */
  ghost predicate Dead(l: Link, t: Tree, rest: seq<Down>) {
    if t.name == MANAGER then l == Link(rest, [], Alone(t, Pc.Dead))
    else l == Link(rest, [KillMsg(2, (Size(t) - 1) % 256)], Alone(t, TermWait))
  }

  ghost predicate Running(l: Link, t: Tree, n: Name, rest: seq<Down>, seen: seq<Event>)
    decreases t
  {
    (l == Link([Line(Kill(n))] + rest, [], Rest(t)) && seen == []) || Working(l, t, n, rest, seen)
  }

  /** The victim is child i of t. */
  ghost predicate VictimKid(t: Tree, n: Name, i: nat, kids: seq<Link>, count: nat, seen: seq<Event>) {
    && i < |t.kids| && t.kids[i].name == n && Searched(t.kids, i, n) && Still(kids, t.kids, i)
    && count == (Size(t.kids[i]) - 1) % 256 && seen == KillVisits(t, n)
  }

  /** Subtree t carries out `kill n`; it has printed `seen` so far. */
  ghost predicate Working(l: Link, t: Tree, n: Name, rest: seq<Down>, seen: seq<Event>)
    decreases t, 0
  {
    if t.name == n then Dying(l, t, rest) && seen == KillVisits(t, n)
    else
      var kids := l.proc.kids;
      && l.down == rest && l.up == [] && l.proc.name == t.name && l.proc.secret == t.secret
      && (match l.proc.pc
          case KillSend(i, m) =>
            && m == n && i < |t.kids| && Still(kids, t.kids, -1) && Searched(t.kids, i, n)
            && seen == [Received(t.name, Kill(n))] + KillVisitsAny(t.kids[..i], n)
          case KillAwait(i, m) =>
            && m == n && i < |t.kids| && Still(kids, t.kids, i) && Searched(t.kids, i, n)
            && var before := [Received(t.name, Kill(n))] + KillVisitsAny(t.kids[..i], n);
            && before <= seen
            && (Running(kids[i], t.kids[i], n, [], seen[|before|..])
                || Finished(kids[i], t.kids[i], n, [], seen[|before|..]))
          case KillAgree(i, m, count) =>
            && m == n && VictimKid(t, n, i, kids, count, seen)
            && kids[i] == Link([], [], Alone(t.kids[i], TermWait))
          case KillReap(i, m, count) =>
            && m == n && VictimKid(t, n, i, kids, count, seen)
            && (kids[i] == Link([Agree], [], Alone(t.kids[i], TermWait))
                || kids[i] == Link([], [], Alone(t.kids[i], Pc.Dead)))
          case KillReply(m, ok, count) =>
            && m == n && ok == Has(t, n) && (ok ==> count == Toll(t, n))
            && Still(kids, RemoveAny(t.kids, n), -1) && seen == KillVisits(t, n)
          case _ => false)
  }

  /** The command is over in subtree t. */
  ghost predicate Finished(l: Link, t: Tree, n: Name, rest: seq<Down>, seen: seq<Event>) {
    && seen == KillLog(t, n)
    && if t.name == n then Dead(l, t, rest)
       else l == Link(rest,
                      if t.name == MANAGER then [] else if Has(t, n) then [KillMsg(1, Toll(t, n))] else [KillMsg(0, 0)],
                      Rest(Remove(t, n)))
  }

  // ---------- the dying subtree ----------

  lemma {:induction false} SizeNext(ts: seq<Tree>, k: nat)
    requires k < |ts|
    ensures SizeAll(ts[..k + 1]) == SizeAll(ts[..k]) + Size(ts[k])
  {
    if k == 0 {
      assert ts[..1] == [ts[0]];
    } else {
      SizeNext(ts[1..], k - 1);
      assert ts[..k + 1][1..] == ts[1..][..k] && ts[..k][1..] == ts[1..][..k - 1];
    }
  }

  lemma AddMod(s: nat, n: nat)
    requires n > 0
    ensures (s % 256 + (n - 1) % 256 + 1) % 256 == (s + n) % 256
  {
  }

  /** Where termination goes when k children are gone. */
  lemma {:induction false} NextVictim(l: Link, t: Tree, k: nat)
    requires l.up == [] && l.proc.name == t.name && l.proc.secret == t.secret
    requires k <= |t.kids| && Still(l.proc.kids, t.kids[k..], -1)
    requires l.proc.pc == TermAt(|t.kids| - k, SizeAll(t.kids[..k]) % 256)
    ensures Dying(l, t, l.down)
  {
    if k == |t.kids| { assert t.kids[..k] == t.kids; }
  }

  lemma {:induction false} DyingSend(l: Link, t: Tree, rest: seq<Down>, g: Fifos)
    requires Dying(l, t, rest) && l.proc.pc.TermSend?
    ensures Dying(StepNode(l, g).link, t, rest)
  {
    var m := StepNode(l, g).link;
    var k := |t.kids| - |l.proc.kids|;
    assert m.proc.kids[0] == Link([] + [Line(Killall)], [], Rest(t.kids[k..][0]));
  }

  lemma {:induction false} DyingHear(l: Link, t: Tree, rest: seq<Down>, g: Fifos)
    requires Dying(l, t, rest) && l.proc.pc.TermAwait? && Plain(t.kids) && StepNode(l, g).Moved?
    ensures Dying(StepNode(l, g).link, t, rest)
  {
    var m := StepNode(l, g).link;
    var k := |t.kids| - |l.proc.kids|;
    assert Dead(l.proc.kids[0], t.kids[k], []);
    SizeNext(t.kids, k);
    AddMod(SizeAll(t.kids[..k]), Size(t.kids[k]));
    assert m.proc.kids[0] == Link([], [], Alone(t.kids[k], TermWait));
  }

  lemma {:induction false} DyingReap(l: Link, t: Tree, rest: seq<Down>, g: Fifos)
    requires Dying(l, t, rest) && l.proc.pc.TermReap? && StepNode(l, g).Moved?
    ensures Dying(StepNode(l, g).link, t, rest)
  {
    var m := StepNode(l, g).link;
    var k := |t.kids| - |l.proc.kids|;
    assert t.kids[k..][1..] == t.kids[k + 1..];
    assert m.proc.kids == l.proc.kids[1..];
    NextVictim(m, t, k + 1);
  }

  lemma {:induction false} DyingAgree(l: Link, t: Tree, rest: seq<Down>, g: Fifos)
    requires Dying(l, t, rest) && l.proc.pc.TermAgree?
    ensures Dying(StepNode(l, g).link, t, rest)
  {
    var m := StepNode(l, g).link;
    var k := |t.kids| - |l.proc.kids|;
    assert m.proc.kids[0] == Link([] + [Agree], [], Alone(t.kids[k], TermWait));
  }

  lemma {:induction false} DyingReply(l: Link, t: Tree, rest: seq<Down>, g: Fifos)
    requires Dying(l, t, rest) && l.proc.pc.TermReply?
    ensures Dead(StepNode(l, g).link, t, rest)
  {
  }

  ghost function LastWords(l: Link, t: Tree): seq<Event> {
    if l.proc.pc.TermReply? && t.name == MANAGER then [Killed(t.name, (Size(t) - 1) % 256)] else []
  }

  lemma {:induction false} DyingNode(l: Link, t: Tree, rest: seq<Down>, g: Fifos)
    requires Dying(l, t, rest) && Plain(t.kids) && StepNode(l, g).Moved?
    ensures if l.proc.pc.TermReply? then Dead(StepNode(l, g).link, t, rest) else Dying(StepNode(l, g).link, t, rest)
  {
    var pc := l.proc.pc;
    if pc.TermSend? { DyingSend(l, t, rest, g); }
    else if pc.TermAwait? { DyingHear(l, t, rest, g); }
    else if pc.TermAgree? { DyingAgree(l, t, rest, g); }
    else if pc.TermReap? { DyingReap(l, t, rest, g); }
    else { DyingReply(l, t, rest, g); }
  }

  lemma {:induction false} DyingCosts(l: Link, t: Tree, rest: seq<Down>, g: Fifos)
    requires Dying(l, t, rest) && StepNode(l, g).Moved?
    ensures StepNode(l, g).fifos == g && StepNode(l, g).ev == LastWords(l, t)
    ensures Work(StepNode(l, g).link) < Pot(l)
  {
    NodeCosts(l, g);
  }

  lemma {:induction false} DyingStarts(l: Link, t: Tree, m: Down, rest: seq<Down>, g: Fifos)
    requires l == Link([m] + rest, [], Rest(t)) && (t.name != MANAGER ==> rest == [])
    requires m == Line(Kill(t.name)) || (m == Line(Killall) && t.name != MANAGER)
    ensures Dying(StepNode(l, g).link, t, rest)
    ensures StepNode(l, g).fifos == g && StepNode(l, g).ev == Announce(t.name, m)
    ensures Work(StepNode(l, g).link) < Pot(l)
  {
    NodeCosts(l, g);
    assert ([m] + rest)[1..] == rest;
    assert t.kids[0..] == t.kids && SizeAll(t.kids[..0]) == 0;
    NextVictim(StepNode(l, g).link, t, 0);
  }

  lemma AloneStuck(up: seq<Up>, t: Tree, pc: Pc, g: Fifos, path: seq<nat>)
    requires pc == TermWait || pc == Pc.Dead
    ensures StepAt(Link([], up, Alone(t, pc)), g, path) == Blocked
  {
  }

  /** Child 0 of a dying process has been told to terminate; some process below takes a step. */
  lemma {:induction false} DyingAwait(l: Link, t: Tree, rest: seq<Down>, g: Fifos, path: seq<nat>)
    requires Dying(l, t, rest) && Plain(t.kids) && l.proc.pc.TermAwait? && path != [] && StepAt(l, g, path).Moved?
    ensures var m := StepAt(l, g, path);
            m.fifos == g && m.ev == [] && Dying(m.link, t, rest) && Pot(m.link) < Pot(l)
    decreases path, 0
  {
    var kids := l.proc.kids;
    var k := |t.kids| - |kids|;
    if path[0] != 0 { StillStuck(l, t.kids[k..], 0, g, path); }
    if Dead(kids[0], t.kids[k], []) { AloneStuck(kids[0].up, t.kids[k], TermWait, g, path[1..]); }
    var m := StepAt(l, g, path);
    if kids[0] == Link([Line(Killall)], [], Rest(t.kids[k])) {
      StartedStep(kids[0], t.kids[k], Line(Killall), [], g, path[1..]);
    } else {
      DyingStep(kids[0], t.kids[k], [], g, path[1..]);
    }
    KidCosts(l, 0, m.link.proc.kids[0]);
  }

  lemma {:induction false} StartedStep(l: Link, t: Tree, m: Down, rest: seq<Down>, g: Fifos, path: seq<nat>)
    requires l == Link([m] + rest, [], Rest(t)) && (t.name != MANAGER ==> rest == [])
    requires m == Line(Kill(t.name)) || (m == Line(Killall) && t.name != MANAGER)
    requires StepAt(l, g, path).Moved?
    ensures var s := StepAt(l, g, path);
            Dying(s.link, t, rest) && s.fifos == g && s.ev == Announce(t.name, m) && Work(s.link) < Pot(l)
  {
    if path == [] { DyingStarts(l, t, m, rest, g); } else { StillStuck(l, t.kids, -1, g, path); }
  }

  /** A process that is permitted to exit exits; nothing else can happen in what is left of its subtree. */
  lemma {:induction false} AloneLeaves(l: Link, t: Tree, g: Fifos, path: seq<nat>)
    requires l == Link([Agree], [], Alone(t, TermWait)) || l == Link([], [], Alone(t, Pc.Dead))
    requires StepAt(l, g, path).Moved?
    ensures StepAt(l, g, path) == Moved(Link([], [], Alone(t, Pc.Dead)), g, [])
    ensures Work(StepAt(l, g, path).link) < Pot(l)
  {
    if path == [] { NodeCosts(l, g); }
  }

  lemma {:induction false} DyingLeaves(l: Link, t: Tree, rest: seq<Down>, g: Fifos, path: seq<nat>)
    requires Dying(l, t, rest) && l.proc.pc.TermReap? && path != [] && StepAt(l, g, path).Moved?
    ensures var m := StepAt(l, g, path);
            m.fifos == g && m.ev == [] && Dying(m.link, t, rest) && Pot(m.link) < Pot(l)
  {
    var kids := l.proc.kids;
    var k := |t.kids| - |kids|;
    if path[0] != 0 { StillStuck(l, t.kids[k..], 0, g, path); }
    AloneLeaves(kids[0], t.kids[k], g, path[1..]);
    var gone := Link([], [], Alone(t.kids[k], Pc.Dead));
    assert StepAt(l, g, path) == Moved(SetKid(l, 0, gone), g, []);
    KidGone(l, t, rest);
    KidCosts(l, 0, gone);
  }

  lemma {:induction false} KidGone(l: Link, t: Tree, rest: seq<Down>)
    requires Dying(l, t, rest) && l.proc.pc.TermReap?
    ensures Dying(SetKid(l, 0, Link([], [], Alone(t.kids[|t.kids| - |l.proc.kids|], Pc.Dead))), t, rest)
  {
  }

  lemma {:induction false} DyingStep(l: Link, t: Tree, rest: seq<Down>, g: Fifos, path: seq<nat>)
    requires Dying(l, t, rest) && Plain(t.kids) && (t.name != MANAGER ==> rest == []) && StepAt(l, g, path).Moved?
    ensures var m := StepAt(l, g, path);
            && m.fifos == g && m.ev == LastWords(l, t) && Work(m.link) < Pot(l)
            && if l.proc.pc.TermReply? then Dead(m.link, t, rest) else Dying(m.link, t, rest)
    decreases path, 1
  {
    var pc := l.proc.pc;
    var k := |t.kids| - |l.proc.kids|;
    if path == [] { DyingNode(l, t, rest, g); DyingCosts(l, t, rest, g); }
    else if pc.TermAwait? { DyingAwait(l, t, rest, g, path); }
    else if pc.TermReap? { DyingLeaves(l, t, rest, g, path); }
    else if pc.TermAgree? {
      if path[0] != 0 { StillStuck(l, t.kids[k..], 0, g, path); }
      AloneStuck([], t.kids[k], TermWait, g, path[1..]);
    } else { StillStuck(l, t.kids[k..], -1, g, path); }
  }

  lemma {:induction false} DyingProgress(l: Link, t: Tree, rest: seq<Down>, g: Fifos) returns (path: seq<nat>)
    requires Dying(l, t, rest) && Plain(t.kids)
    ensures StepAt(l, g, path).Moved?
    decreases t
  {
    path := [];
    var kids := l.proc.kids;
    var k := |t.kids| - |kids|;
    if l.proc.pc.TermAwait? && kids[0].up == [] {
      var sub := [];
      if Dying(kids[0], t.kids[k], []) { sub := DyingProgress(kids[0], t.kids[k], [], g); }
      path := [0] + sub;
      assert path[1..] == sub;
    } else if l.proc.pc.TermReap? && kids[0].down != [] {
      path := [0];
      assert path[1..] == [];
    }
  }

  // ---------- the search for the victim ----------

  lemma {:induction false} VisitNext(ts: seq<Tree>, i: nat, n: Name)
    requires i < |ts| && Searched(ts, i, n)
    ensures KillVisitsAny(ts[..i + 1], n) == KillVisitsAny(ts[..i], n) + KillVisits(ts[i], n)
  {
    if i == 0 {
      assert ts[..1] == [ts[0]];
    } else {
      VisitNext(ts[1..], i - 1, n);
      assert ts[..i + 1][1..] == ts[1..][..i] && ts[..i][1..] == ts[1..][..i - 1];
    }
  }

  lemma {:induction false} VisitFound(ts: seq<Tree>, i: nat, n: Name)
    requires i < |ts| && Searched(ts, i, n) && Has(ts[i], n)
    ensures KillVisitsAny(ts, n) == KillVisitsAny(ts[..i], n) + KillVisits(ts[i], n)
  {
    if i > 0 {
      VisitFound(ts[1..], i - 1, n);
      assert ts[..i][1..] == ts[1..][..i - 1];
    }
  }

  lemma {:induction false} VictimFound(ts: seq<Tree>, i: nat, n: Name)
    requires i < |ts| && Searched(ts, i, n) && Has(ts[i], n)
    ensures HasAny(ts, n) && VictimAny(ts, n) == Victim(ts[i], n)
  {
    if i > 0 {
      VictimFound(ts[1..], i - 1, n);
    }
  }

  lemma {:induction false} RemoveFound(ts: seq<Tree>, i: nat, n: Name)
    requires i < |ts| && Searched(ts, i, n) && Has(ts[i], n)
    ensures RemoveAny(ts, n) == if ts[i].name == n then ts[..i] + ts[i + 1..] else ts[i := Remove(ts[i], n)]
  {
    if i == 0 {
      assert ts[i].name == n ==> ts[..0] + ts[1..] == ts[1..];
      assert ts[i].name != n ==> ts[0 := Remove(ts[0], n)] == [Remove(ts[0], n)] + ts[1..];
    } else {
      RemoveFound(ts[1..], i - 1, n);
      assert RemoveAny(ts, n) == [ts[0]] + RemoveAny(ts[1..], n) && ts[1..][i - 1] == ts[i];
      if ts[i].name == n {
        assert ts[..i] + ts[i + 1..] == [ts[0]] + (ts[1..][..i - 1] + ts[1..][i..]);
      } else {
        assert ts[i := Remove(ts[i], n)] == [ts[0]] + ts[1..][i - 1 := Remove(ts[i], n)];
      }
    }
  }

  lemma {:induction false} NotFound(ts: seq<Tree>, n: Name)
    requires Searched(ts, |ts|, n)
    ensures RemoveAny(ts, n) == ts
  {
    if ts != [] {
      NotFound(ts[1..], n);
    }
  }

  lemma {:induction false} Resume(l: Link, t: Tree, n: Name, i: nat, seen: seq<Event>)
    requires t.name != n && i <= |t.kids|
    requires l.up == [] && l.proc.name == t.name && l.proc.secret == t.secret
    requires Searched(t.kids, i, n) && Still(l.proc.kids, t.kids, -1)
    requires seen == [Received(t.name, Kill(n))] + KillVisitsAny(t.kids[..i], n)
    requires l.proc.pc == KillAt(i, |t.kids|, n)
    ensures Working(l, t, n, l.down, seen)
  {
    if i == |t.kids| {
      NotFound(t.kids, n);
      assert t.kids[..i] == t.kids;
    }
  }

  lemma {:induction false} Sent(l: Link, t: Tree, n: Name, rest: seq<Down>, seen: seq<Event>, i: nat, g: Fifos)
    requires t.name != n && Working(l, t, n, rest, seen) && l.proc.pc == KillSend(i, n)
    ensures Working(StepNode(l, g).link, t, n, rest, seen)
  {
    var m := StepNode(l, g).link;
    var before := [Received(t.name, Kill(n))] + KillVisitsAny(t.kids[..i], n);
    assert m.proc.kids[i] == Link([Line(Kill(n))] + [], [], Rest(t.kids[i]));
    assert seen[|before|..] == [];
    assert Running(m.proc.kids[i], t.kids[i], n, [], []);
  }

  /** Once child i has answered, it is done with the command. */
  lemma {:induction false} Answered(k: Link, t: Tree, n: Name, seen: seq<Event>)
    requires t.name != MANAGER && Running(k, t, n, [], seen)
    ensures k.up == []
  {
  }

  /** What the parent knows when the answer of child i is there. */
  lemma {:induction false} Heard(l: Link, t: Tree, n: Name, rest: seq<Down>, seen: seq<Event>, i: nat, g: Fifos)
    requires t.name != n && Plain(t.kids) && Working(l, t, n, rest, seen) && l.proc.pc == KillAwait(i, n)
        && StepNode(l, g).Moved?
    ensures seen == [Received(t.name, Kill(n))] + KillVisitsAny(t.kids[..i], n) + KillVisits(t.kids[i], n)
    ensures Finished(l.proc.kids[i], t.kids[i], n, [], KillLog(t.kids[i], n))
  {
    var k := l.proc.kids[i];
    var before := [Received(t.name, Kill(n))] + KillVisitsAny(t.kids[..i], n);
    if Running(k, t.kids[i], n, [], seen[|before|..]) { Answered(k, t.kids[i], n, seen[|before|..]); }
    assert Finished(k, t.kids[i], n, [], seen[|before|..]);
  }

  /** The victim is somewhere below child i. */
  lemma {:induction false} FoundBelow(t: Tree, n: Name, i: nat)
    requires t.name != n && i < |t.kids| && Searched(t.kids, i, n) && Has(t.kids[i], n)
    ensures Has(t, n) && Toll(t, n) == Toll(t.kids[i], n)
    ensures KillVisits(t, n) == [Received(t.name, Kill(n))] + KillVisitsAny(t.kids[..i], n) + KillVisits(t.kids[i], n)
  {
    VisitFound(t.kids, i, n);
    VictimFound(t.kids, i, n);
  }

  lemma {:induction false} HeardBelow(l: Link, t: Tree, n: Name, rest: seq<Down>, seen: seq<Event>, i: nat, g: Fifos)
    requires t.name != n && Plain(t.kids) && Working(l, t, n, rest, seen) && l.proc.pc == KillAwait(i, n)
    requires StepNode(l, g).Moved? && Has(t.kids[i], n) && t.kids[i].name != n
    ensures Working(StepNode(l, g).link, t, n, rest, seen)
  {
    Heard(l, t, n, rest, seen, i, g);
    HearsYes(l, i, n, Toll(t.kids[i], n), Rest(Remove(t.kids[i], n)), g);
    FoundBelow(t, n, i);
    RemoveFound(t.kids, i, n);
    StillSet(l.proc.kids, t.kids, i, Remove(t.kids[i], n));
  }

  lemma {:induction false} HearsYes(l: Link, i: nat, n: Name, count: nat, p: Proc, g: Fifos)
    requires l.proc.pc == KillAwait(i, n) && i < |l.proc.kids| && l.proc.kids[i] == Link([], [KillMsg(1, count)], p)
    ensures StepNode(l, g) == Moved(Goto(SetKid(l, i, Link([], [], p)), KillReply(n, true, count)), g, [])
  {
    assert l.proc.kids[i].up[1..] == [];
  }

  lemma {:induction false} HearsNo(l: Link, i: nat, n: Name, p: Proc, g: Fifos)
    requires l.proc.pc == KillAwait(i, n) && i < |l.proc.kids| && l.proc.kids[i] == Link([], [KillMsg(0, 0)], p)
    ensures StepNode(l, g) == Moved(Goto(SetKid(l, i, Link([], [], p)), KillAt(i + 1, |l.proc.kids|, n)), g, [])
  {
    assert l.proc.kids[i].up[1..] == [];
  }

  lemma {:induction false} HeardVictim(l: Link, t: Tree, n: Name, rest: seq<Down>, seen: seq<Event>, i: nat, g: Fifos)
    requires t.name != n && Plain(t.kids) && Working(l, t, n, rest, seen) && l.proc.pc == KillAwait(i, n)
    requires StepNode(l, g).Moved? && t.kids[i].name == n
    ensures Working(StepNode(l, g).link, t, n, rest, seen)
  {
    Heard(l, t, n, rest, seen, i, g);
    FoundBelow(t, n, i);
    assert StepNode(l, g).link.proc.kids[i] == Link([], [], Alone(t.kids[i], TermWait));
  }

  lemma {:induction false} HeardNo(l: Link, t: Tree, n: Name, rest: seq<Down>, seen: seq<Event>, i: nat, g: Fifos)
    requires t.name != n && Plain(t.kids) && Working(l, t, n, rest, seen) && l.proc.pc == KillAwait(i, n)
    requires StepNode(l, g).Moved? && !Has(t.kids[i], n)
    ensures Working(StepNode(l, g).link, t, n, rest, seen)
  {
    Heard(l, t, n, rest, seen, i, g);
    NotFound(t.kids[i].kids, n);
    HearsNo(l, i, n, Rest(t.kids[i]), g);
    VisitNext(t.kids, i, n);
    assert seen == [Received(t.name, Kill(n))] + KillVisitsAny(t.kids[..i + 1], n);
    Resume(StepNode(l, g).link, t, n, i + 1, seen);
  }

  lemma {:induction false} Permitted(l: Link, t: Tree, n: Name, rest: seq<Down>, seen: seq<Event>, g: Fifos)
    requires t.name != n && Working(l, t, n, rest, seen) && l.proc.pc.KillAgree?
    ensures Working(StepNode(l, g).link, t, n, rest, seen)
  {
    var i := l.proc.pc.i;
    assert StepNode(l, g).link.proc.kids[i] == Link([] + [Agree], [], Alone(t.kids[i], TermWait));
  }

  /** The victim is child i. */
  lemma {:induction false} FoundHere(t: Tree, n: Name, i: nat)
    requires t.name != n && i < |t.kids| && Searched(t.kids, i, n) && t.kids[i].name == n
    ensures Has(t, n) && Toll(t, n) == (Size(t.kids[i]) - 1) % 256
    ensures RemoveAny(t.kids, n) == t.kids[..i] + t.kids[i + 1..]
  {
    assert Has(t.kids[i], n);
    VictimFound(t.kids, i, n);
    RemoveFound(t.kids, i, n);
  }

  lemma {:induction false} Reaped(l: Link, t: Tree, n: Name, rest: seq<Down>, seen: seq<Event>, g: Fifos)
    requires t.name != n && Working(l, t, n, rest, seen) && l.proc.pc.KillReap? && StepNode(l, g).Moved?
    ensures Working(StepNode(l, g).link, t, n, rest, seen)
  {
    var i := l.proc.pc.i;
    FoundHere(t, n, i);
    StillCut(l.proc.kids, t.kids, i);
  }

  lemma {:induction false} Replied(l: Link, t: Tree, n: Name, rest: seq<Down>, seen: seq<Event>, g: Fifos)
    requires t.name != n && Working(l, t, n, rest, seen) && l.proc.pc.KillReply?
    ensures Finished(StepNode(l, g).link, t, n, rest, seen + StepNode(l, g).ev)
  {
    assert l.proc.kids == Rest(Remove(t, n)).kids;
    assert KillVisits(t, n) + [] == KillVisits(t, n);
  }

  lemma {:induction false} Started(l: Link, t: Tree, n: Name, rest: seq<Down>, g: Fifos)
    requires t.name != n && (t.name != MANAGER ==> rest == [])
    requires l == Link([Line(Kill(n))] + rest, [], Rest(t))
    ensures Working(StepNode(l, g).link, t, n, rest, StepNode(l, g).ev)
  {
    var m := StepNode(l, g);
    assert ([Line(Kill(n))] + rest)[1..] == rest;
    assert t.kids[..0] == [];
    assert m.ev == [Received(t.name, Kill(n))] + KillVisitsAny(t.kids[..0], n);
    Resume(m.link, t, n, 0, m.ev);
  }

  lemma {:induction false} NodeStep(l: Link, t: Tree, n: Name, rest: seq<Down>, seen: seq<Event>, g: Fifos)
    requires t.name != n && Plain(t.kids) && (t.name != MANAGER ==> rest == [])
    requires Running(l, t, n, rest, seen) && StepNode(l, g).Moved?
    ensures Working(StepNode(l, g).link, t, n, rest, seen + StepNode(l, g).ev)
         || Finished(StepNode(l, g).link, t, n, rest, seen + StepNode(l, g).ev)
  {
    assert seen + [] == seen;
    var pc := l.proc.pc;
    if pc == Ready { Started(l, t, n, rest, g); }
    else if pc.KillSend? { Sent(l, t, n, rest, seen, pc.i, g); }
    else if pc.KillAwait? {
      if t.kids[pc.i].name == n { HeardVictim(l, t, n, rest, seen, pc.i, g); }
      else if Has(t.kids[pc.i], n) { HeardBelow(l, t, n, rest, seen, pc.i, g); }
      else { HeardNo(l, t, n, rest, seen, pc.i, g); }
    }
    else if pc.KillAgree? { Permitted(l, t, n, rest, seen, g); }
    else if pc.KillReap? { Reaped(l, t, n, rest, seen, g); }
    else { Replied(l, t, n, rest, seen, g); }
  }

  lemma {:induction false} Costs(l: Link, t: Tree, n: Name, rest: seq<Down>, seen: seq<Event>, g: Fifos)
    requires t.name != n && Running(l, t, n, rest, seen) && StepNode(l, g).Moved?
    ensures StepNode(l, g).fifos == g && Work(StepNode(l, g).link) < Pot(l)
  {
    NodeCosts(l, g);
  }

  // ---------- steps anywhere in the subtree ----------

  /** The child that is waited for moves on; its parent keeps waiting. */
  lemma {:induction false} KidMoved(l: Link, t: Tree, n: Name, rest: seq<Down>, seen: seq<Event>, ev: seq<Event>,
      k: Link)
    requires t.name != n && Working(l, t, n, rest, seen) && l.proc.pc.KillAwait?
    requires var i, before := l.proc.pc.i, [Received(t.name, Kill(n))] + KillVisitsAny(t.kids[..l.proc.pc.i], n);
             Working(k, t.kids[i], n, [], seen[|before|..] + ev) || Finished(k, t.kids[i], n, [], seen[|before|..] + ev)
    ensures Working(SetKid(l, l.proc.pc.i, k), t, n, rest, seen + ev)
  {
    var i, before := l.proc.pc.i, [Received(t.name, Kill(n))] + KillVisitsAny(t.kids[..l.proc.pc.i], n);
    assert (seen + ev)[|before|..] == seen[|before|..] + ev;
  }

  lemma {:induction false} NotReady(k: Link, t: Tree, n: Name, seen: seq<Event>)
    requires t.name != MANAGER && (Working(k, t, n, [], seen) || Finished(k, t, n, [], seen))
    ensures MsgPot(k) == 0
  {
  }

  lemma {:induction false} AwaitedStep(l: Link, t: Tree, n: Name, rest: seq<Down>, seen: seq<Event>, g: Fifos,
      path: seq<nat>)
    requires t.name != n && Plain(t.kids) && Working(l, t, n, rest, seen) && l.proc.pc.KillAwait?
    requires path != [] && StepAt(l, g, path).Moved?
    ensures var m := StepAt(l, g, path);
            && m.fifos == g && Working(m.link, t, n, rest, seen + m.ev) && Pot(m.link) < Pot(l)
    decreases path, 0
  {
    var i := l.proc.pc.i;
    var k := l.proc.kids[i];
    if path[0] != i { StillStuck(l, t.kids, i, g, path); }
    var before := [Received(t.name, Kill(n))] + KillVisitsAny(t.kids[..i], n);
    var sub := seen[|before|..];
    if Finished(k, t.kids[i], n, [], sub) { FinishedStuck(k, t.kids[i], n, sub, g, path[1..]); }
    AnyStep(k, t.kids[i], n, [], sub, g, path[1..]);
    var m := StepAt(k, g, path[1..]);
    NotReady(m.link, t.kids[i], n, sub + m.ev);
    KidMoved(l, t, n, rest, seen, m.ev, m.link);
    KidCosts(l, i, m.link);
  }

  lemma {:induction false} FinishedStuck(k: Link, t: Tree, n: Name, seen: seq<Event>, g: Fifos, path: seq<nat>)
    requires t.name != MANAGER && Finished(k, t, n, [], seen)
    ensures StepAt(k, g, path) == Blocked
  {
    if t.name == n { AloneStuck(k.up, t, TermWait, g, path); } else { QuietStuck(k.up, Remove(t, n), g, path); }
  }

  lemma {:induction false} VictimLeaves(l: Link, t: Tree, n: Name, rest: seq<Down>, seen: seq<Event>, g: Fifos,
      path: seq<nat>)
    requires t.name != n && Working(l, t, n, rest, seen) && (l.proc.pc.KillAgree? || l.proc.pc.KillReap?)
    requires path != [] && StepAt(l, g, path).Moved?
    ensures var m := StepAt(l, g, path);
            && m.fifos == g && m.ev == [] && Working(m.link, t, n, rest, seen) && Pot(m.link) < Pot(l)
  {
    var i := l.proc.pc.i;
    if path[0] != i { StillStuck(l, t.kids, i, g, path); }
    if l.proc.pc.KillAgree? { AloneStuck([], t.kids[i], TermWait, g, path[1..]); }
    AloneLeaves(l.proc.kids[i], t.kids[i], g, path[1..]);
    var gone := Link([], [], Alone(t.kids[i], Pc.Dead));
    assert StepAt(l, g, path) == Moved(SetKid(l, i, gone), g, []);
    VictimGone(l, t, n, rest, seen);
    KidCosts(l, i, gone);
  }

  lemma {:induction false} VictimGone(l: Link, t: Tree, n: Name, rest: seq<Down>, seen: seq<Event>)
    requires t.name != n && Working(l, t, n, rest, seen) && l.proc.pc.KillReap?
    ensures Working(SetKid(l, l.proc.pc.i, Link([], [], Alone(t.kids[l.proc.pc.i], Pc.Dead))), t, n, rest, seen)
  {
  }

  lemma {:induction false} KidStep(l: Link, t: Tree, n: Name, rest: seq<Down>, seen: seq<Event>, g: Fifos,
      path: seq<nat>)
    requires t.name != n && Plain(t.kids) && Running(l, t, n, rest, seen) && path != [] && StepAt(l, g, path).Moved?
    ensures var m := StepAt(l, g, path);
            && m.fifos == g && Working(m.link, t, n, rest, seen + m.ev) && Pot(m.link) < Pot(l)
    decreases path, 1
  {
    var pc := l.proc.pc;
    assert seen + [] == seen;
    if pc.KillAwait? { AwaitedStep(l, t, n, rest, seen, g, path); }
    else if pc.KillAgree? || pc.KillReap? { VictimLeaves(l, t, n, rest, seen, g, path); }
    else { StillStuck(l, if pc.KillReply? then RemoveAny(t.kids, n) else t.kids, -1, g, path); }
  }

  /** The service at the top of the subtree is the victim. */
  lemma {:induction false} SelfStep(l: Link, t: Tree, rest: seq<Down>, seen: seq<Event>, g: Fifos, path: seq<nat>)
    requires Plain(t.kids) && (t.name != MANAGER ==> rest == [])
    requires Running(l, t, t.name, rest, seen) && StepAt(l, g, path).Moved?
    ensures var m := StepAt(l, g, path);
            && m.fifos == g && Work(m.link) < Pot(l)
            && (Working(m.link, t, t.name, rest, seen + m.ev) || Finished(m.link, t, t.name, rest, seen + m.ev))
  {
    assert seen + [] == seen;
    if l == Link([Line(Kill(t.name))] + rest, [], Rest(t)) {
      StartedStep(l, t, Line(Kill(t.name)), rest, g, path);
    } else {
      DyingStep(l, t, rest, g, path);
    }
  }

  /** Whichever process moves, the command makes progress towards its one outcome. */
  lemma {:induction false} AnyStep(l: Link, t: Tree, n: Name, rest: seq<Down>, seen: seq<Event>, g: Fifos,
      path: seq<nat>)
    requires Plain(t.kids) && (t.name != MANAGER ==> rest == [])
    requires Running(l, t, n, rest, seen) && StepAt(l, g, path).Moved?
    ensures var m := StepAt(l, g, path);
            && m.fifos == g && Work(m.link) < Pot(l)
            && (Working(m.link, t, n, rest, seen + m.ev) || Finished(m.link, t, n, rest, seen + m.ev))
    decreases path, 2
  {
    if t.name == n {
      SelfStep(l, t, rest, seen, g, path);
    } else if path == [] {
      NodeStep(l, t, n, rest, seen, g);
      Costs(l, t, n, rest, seen, g);
    } else {
      KidStep(l, t, n, rest, seen, g, path);
    }
  }

  /** Some process can always move. */
  lemma {:induction false} Progress(l: Link, t: Tree, n: Name, rest: seq<Down>, seen: seq<Event>, g: Fifos)
      returns (path: seq<nat>)
    requires Running(l, t, n, rest, seen) && (t.name != MANAGER ==> rest == []) && Plain(t.kids)
    ensures StepAt(l, g, path).Moved?
    decreases t
  {
    path := [];
    var pc := l.proc.pc;
    if t.name == n && Dying(l, t, rest) {
      path := DyingProgress(l, t, rest, g);
    } else if pc.KillAwait? {
      var i := pc.i;
      var before := [Received(t.name, Kill(n))] + KillVisitsAny(t.kids[..i], n);
      if Running(l.proc.kids[i], t.kids[i], n, [], seen[|before|..]) {
        var sub := Progress(l.proc.kids[i], t.kids[i], n, [], seen[|before|..], g);
        path := [i] + sub;
        assert path[1..] == sub;
      }
    } else if pc.KillReap? && l.proc.kids[pc.i].down != [] {
      path := [pc.i];
      assert path[1..] == [];
    }
  }

  lemma {:induction false} DyingTidy(l: Link, t: Tree, rest: seq<Down>)
    requires Dying(l, t, rest)
    ensures Tidy(l.proc)
    decreases t
  {
    var pc := l.proc.pc;
    var k := |t.kids| - |l.proc.kids|;
    if pc.TermAwait? {
      RestTidy(t.kids[k]);
      if Dying(l.proc.kids[0], t.kids[k], []) { DyingTidy(l.proc.kids[0], t.kids[k], []); }
      StillTidy(l.proc, t.kids[k..], 0);
    } else if !pc.TermReply? {
      StillTidy(l.proc, t.kids[k..], if pc.TermSend? then -1 else 0);
    }
  }

  lemma {:induction false} RunningTidy(l: Link, t: Tree, n: Name, rest: seq<Down>, seen: seq<Event>)
    requires Running(l, t, n, rest, seen)
    ensures Tidy(l.proc) && (rest == [] ==> |l.down| <= 1)
    decreases t
  {
    RestTidy(t);
    var pc := l.proc.pc;
    if pc == Ready {
    } else if t.name == n {
      DyingTidy(l, t, rest);
    } else if pc.KillAwait? {
      var sub := seen[|[Received(t.name, Kill(n))] + KillVisitsAny(t.kids[..pc.i], n)|..];
      if Finished(l.proc.kids[pc.i], t.kids[pc.i], n, [], sub) {
        if t.kids[pc.i].name != n { RestTidy(Remove(t.kids[pc.i], n)); }
      } else { RunningTidy(l.proc.kids[pc.i], t.kids[pc.i], n, [], sub); }
      StillTidy(l.proc, t.kids, pc.i);
    } else if pc.KillAgree? || pc.KillReap? {
      StillTidy(l.proc, t.kids, pc.i);
    } else {
      StillTidy(l.proc, if pc.KillReply? then RemoveAny(t.kids, n) else t.kids, -1);
    }
  }

  lemma {:induction false} RunningReady(l: Link, t: Tree, n: Name, rest: seq<Down>, seen: seq<Event>)
    requires Running(l, t, n, rest, seen) && l.proc.pc == Ready
    ensures l == Link([Line(Kill(n))] + rest, [], Rest(t)) && seen == []
  {
  }
}
