/** A measure on configurations that every step of a running command lowers. */
module ServiceMeasure {
  import opened ServiceTree
  import opened ServiceMachine

  /** An upper bound on the steps one command costs a tree of n services. */
  const PER_SERVICE := 26

  ghost function Nodes(p: Proc): (n: nat)
    ensures n >= 1
    decreases p, 1
  {
    1 + NodesAll(p.kids)
  }

  ghost function NodesAll(kids: seq<Link>): nat
    decreases kids, 0
  {
    if kids == [] then 0 else Nodes(kids[0].proc) + NodesAll(kids[1..])
  }

  ghost function From(kids: seq<Link>, i: nat): nat {
    if i <= |kids| then PER_SERVICE * NodesAll(kids[i..]) else 0
  }

  /** The steps that remain at a program counter, once the children are done with. */
  function Base(pc: Pc): nat {
    match pc
    case Boot => 1
    case SpawnSend(_, _) => 18
    case KillSend(_, _) => 18
    case TermSend(_) => 18
    case XSend(_, _) => 18
    case SpawnAwait(_, _) => 23
    case KillAwait(_, _) => 23
    case TermAwait(_) => 23
    case XAwait(_, _) => 23
    case TermAgree(_) => 22
    case TermReap(_) => 21
    case SpawnFork(_) => 18
    case SpawnBooted(_) => 10
    case KillAgree(_, _, _) => 6
    case KillReap(_, _, _) => 5
    case TermWait => 1
    case XReport(_) => 17
    case XFifo(k, _, _) => if k <= 11 then 16 - k else 0
    case XJoin(j, _) => if j == 0 then 4 else 3
    case Ready => 0
    case Dead => 0
    case Failed => 0
    case _ => 2
  }

  /** The first child whose part of the command has not been sent yet, or -1. */
  function Next(pc: Pc): int {
    match pc
    case SpawnSend(i, _) => i
    case KillSend(i, _) => i
    case XSend(i, _) => i
    case TermSend(_) => 0
    case SpawnAwait(i, _) => i + 1
    case KillAwait(i, _) => i + 1
    case XAwait(i, _) => i + 1
    case TermAwait(_) => 1
    case TermAgree(_) => 1
    case TermReap(_) => 1
    case _ => -1
  }

  ghost function PcPot(p: Proc): nat {
    Base(p.pc) + if Next(p.pc) >= 0 then From(p.kids, Next(p.pc)) else 0
  }

  /** A command that waits in the pipe of an idle process. */
  ghost function MsgPot(l: Link): nat {
    if l.down != [] && l.proc.pc == Ready then PER_SERVICE * Nodes(l.proc) - 6 else 0
  }

  ghost function Pot(l: Link): nat
    decreases l, 1
  {
    MsgPot(l) + PcPot(l.proc) + PotAll(l.proc.kids)
  }

  ghost function PotAll(kids: seq<Link>): nat
    decreases kids, 0
  {
    if kids == [] then 0 else Pot(kids[0]) + PotAll(kids[1..])
  }

  lemma {:induction false} PotSet(kids: seq<Link>, i: nat, k: Link)
    requires i < |kids|
    ensures PotAll(kids[i := k]) == PotAll(kids) - Pot(kids[i]) + Pot(k)
  {
    if i > 0 {
      PotSet(kids[1..], i - 1, k);
      assert kids[i := k][1..] == kids[1..][i - 1 := k];
    } else {
      assert kids[i := k][1..] == kids[1..];
    }
  }

  lemma {:induction false} PotAppend(kids: seq<Link>, k: Link)
    ensures PotAll(kids + [k]) == PotAll(kids) + Pot(k)
  {
    if kids == [] {
      assert kids + [k] == [k];
    } else {
      PotAppend(kids[1..], k);
      assert (kids + [k])[1..] == kids[1..] + [k];
    }
  }

  lemma {:induction false} PotDrop(kids: seq<Link>, i: nat)
    requires i < |kids|
    ensures PotAll(kids[..i] + kids[i + 1..]) == PotAll(kids) - Pot(kids[i])
  {
    if i == 0 {
      assert kids[..0] + kids[1..] == kids[1..];
    } else {
      PotDrop(kids[1..], i - 1);
      assert (kids[..i] + kids[i + 1..])[1..] == kids[1..][..i - 1] + kids[1..][i..];
    }
  }

  lemma {:induction false} NodesSplit(kids: seq<Link>, i: nat)
    requires i < |kids|
    ensures From(kids, i) == PER_SERVICE * Nodes(kids[i].proc) + From(kids, i + 1)
  {
    assert kids[i..][1..] == kids[i + 1..];
  }

  /** A tree at rest owes nothing. */
  lemma {:induction false} PotRest(t: Tree, up: seq<Up>)
    ensures Nodes(Rest(t)) == Size(t)
    ensures Pot(Link([], up, Rest(t))) == 0
    decreases t, 1
  {
    PotRestAll(Rest(t).kids, t.kids);
  }

  lemma {:induction false} PotRestAll(kids: seq<Link>, ts: seq<Tree>)
    requires |kids| == |ts| && forall i :: 0 <= i < |ts| ==> kids[i] == Quiet(ts[i])
    ensures NodesAll(kids) == SizeAll(ts)
    ensures PotAll(kids) == 0
    decreases ts, 0
  {
    if ts != [] {
      PotRest(ts[0], []);
      PotRestAll(kids[1..], ts[1..]);
    }
  }

  /** A parent that has sent child i its part of the command owes less when child i does. */
  lemma {:induction false} KidCosts(l: Link, i: nat, k: Link)
    requires i < |l.proc.kids| && l.proc.pc != Ready && Pot(k) < Pot(l.proc.kids[i])
    requires i < Next(l.proc.pc) || Next(l.proc.pc) == -1
    ensures Pot(SetKid(l, i, k)) < Pot(l)
  {
    PotSet(l.proc.kids, i, k);
    var n := Next(l.proc.pc);
    assert i < n <= |l.proc.kids| ==> l.proc.kids[i := k][n..] == l.proc.kids[n..];
  }

  /** What a process and its descendants owe, apart from a command still in its pipe. */
  ghost function Work(l: Link): nat {
    PcPot(l.proc) + PotAll(l.proc.kids)
  }

  lemma {:induction false} TellCosts(l: Link, i: nat, m: Down, pc: Pc)
    requires i < |l.proc.kids|
    ensures PotAll(Tell(l, i, m, pc).proc.kids) <= PotAll(l.proc.kids) + PER_SERVICE * Nodes(l.proc.kids[i].proc) - 6
    ensures l.proc.kids[i].proc.pc != Ready ==> PotAll(Tell(l, i, m, pc).proc.kids) == PotAll(l.proc.kids)
    ensures From(Tell(l, i, m, pc).proc.kids, i + 1) == From(l.proc.kids, i + 1)
  {
    var k := Tell(l, i, m, pc).proc.kids[i];
    PotSet(l.proc.kids, i, k);
    assert l.proc.kids[i := k][i + 1..] == l.proc.kids[i + 1..];
  }

  lemma {:induction false} HearCosts(l: Link, i: nat, pc: Pc)
    requires i < |l.proc.kids| && l.proc.kids[i].up != []
    ensures PotAll(Hear(l, i, pc).proc.kids) == PotAll(l.proc.kids)
    ensures From(Hear(l, i, pc).proc.kids, i + 1) == From(l.proc.kids, i + 1)
  {
    var k := Hear(l, i, pc).proc.kids[i];
    PotSet(l.proc.kids, i, k);
    assert l.proc.kids[i := k][i + 1..] == l.proc.kids[i + 1..];
  }

  lemma {:induction false} SendCosts(l: Link, i: nat, m: Down, pc: Pc)
    requires i < |l.proc.kids|
    requires Base(l.proc.pc) == 18 && Next(l.proc.pc) == i && Base(pc) == 23 && Next(pc) == i + 1
    ensures Work(Tell(l, i, m, pc)) < Pot(l)
  {
    TellCosts(l, i, m, pc);
    NodesSplit(l.proc.kids, i);
  }

  lemma {:induction false} AgreeCosts(l: Link, i: nat, pc: Pc)
    requires i < |l.proc.kids| && l.proc.kids[i].proc.pc != Ready
    requires Base(pc) < Base(l.proc.pc) && Next(pc) == Next(l.proc.pc) && (Next(pc) == -1 || Next(pc) == i + 1)
    ensures Work(Tell(l, i, Agree, pc)) < Pot(l)
  {
    TellCosts(l, i, Agree, pc);
  }

  lemma {:induction false} ListenCosts(l: Link, i: nat, pc: Pc)
    requires i < |l.proc.kids| && l.proc.kids[i].up != []
    requires Base(pc) < Base(l.proc.pc)
    requires Next(pc) == -1 || (Next(pc) == i + 1 == Next(l.proc.pc))
    ensures Work(Hear(l, i, pc)) < Pot(l)
  {
    HearCosts(l, i, pc);
  }

  lemma {:induction false} ReapCosts(l: Link, i: nat, pc: Pc)
    requires i < |l.proc.kids| && Base(pc) < Base(l.proc.pc)
    requires Next(pc) == -1 || (i == Next(pc) == 0 && Next(l.proc.pc) == 1)
    ensures Work(Reap(l, i, pc)) < Pot(l)
  {
    var kids := l.proc.kids;
    PotDrop(kids, i);
    if i == 0 {
      assert kids[..0] + kids[1..] == kids[1..] && kids[1..][0..] == kids[1..];
    }
  }

  lemma {:induction false} StartCosts(l: Link, g: Fifos)
    requires StepNode(l, g).Moved? && l.proc.pc == Ready
    ensures Work(StepNode(l, g).link) < Pot(l)
  {
    var q := StepNode(l, g).link.proc;
    assert Base(q.pc) <= 18 && Next(q.pc) <= 0;
    assert l.proc.kids[0..] == l.proc.kids;
    assert PcPot(q) <= 18 + From(l.proc.kids, 0);
  }

  lemma {:induction false} ForkCosts(l: Link, g: Fifos)
    requires StepNode(l, g).Moved? && l.proc.pc.SpawnFork?
    ensures Work(StepNode(l, g).link) < Pot(l)
  {
    var c := l.proc.pc.c;
    PotAppend(l.proc.kids, Link([], [], Proc(c.child, c.seed, Boot, [])));
  }

  lemma {:induction false} StayCosts(l: Link, m: Link)
    requires m.proc.kids == l.proc.kids && Base(m.proc.pc) < Base(l.proc.pc) && Next(m.proc.pc) == -1
    ensures Work(m) < Pot(l)
  {
  }

  lemma {:induction false} SpawnCosts(l: Link, g: Fifos)
    requires StepNode(l, g).Moved?
    requires l.proc.pc.SpawnFork? || l.proc.pc.SpawnSend? || l.proc.pc.SpawnAwait? || l.proc.pc.SpawnBooted?
    ensures Work(StepNode(l, g).link) < Pot(l)
  {
    var pc := StepNode(l, g).link.proc.pc;
    match l.proc.pc {
      case SpawnFork(c) => ForkCosts(l, g);
      case SpawnSend(i, c) => SendCosts(l, i, Line(c), pc);
      case SpawnAwait(i, c) => ListenCosts(l, i, pc);
      case SpawnBooted(c) => ListenCosts(l, |l.proc.kids| - 1, pc);
    }
  }

  lemma {:induction false} KillCosts(l: Link, g: Fifos)
    requires StepNode(l, g).Moved?
    requires l.proc.pc.KillSend? || l.proc.pc.KillAwait? || l.proc.pc.KillAgree? || l.proc.pc.KillReap?
    requires l.proc.pc.KillAgree? && l.proc.pc.i < |l.proc.kids| ==> l.proc.kids[l.proc.pc.i].proc.pc != Ready
    ensures Work(StepNode(l, g).link) < Pot(l)
  {
    var pc := StepNode(l, g).link.proc.pc;
    match l.proc.pc {
      case KillSend(i, n) => SendCosts(l, i, Line(Kill(n)), pc);
      case KillAwait(i, n) => ListenCosts(l, i, pc);
      case KillAgree(i, n, count) => AgreeCosts(l, i, pc);
      case KillReap(i, n, count) => ReapCosts(l, i, pc);
    }
  }

  lemma {:induction false} TermCosts(l: Link, g: Fifos)
    requires StepNode(l, g).Moved?
    requires l.proc.pc.TermSend? || l.proc.pc.TermAwait? || l.proc.pc.TermAgree? || l.proc.pc.TermReap?
    requires l.proc.pc.TermAgree? && |l.proc.kids| > 0 ==> l.proc.kids[0].proc.pc != Ready
    ensures Work(StepNode(l, g).link) < Pot(l)
  {
    var pc := StepNode(l, g).link.proc.pc;
    match l.proc.pc {
      case TermSend(acc) => SendCosts(l, 0, Line(Killall), pc);
      case TermAwait(acc) => ListenCosts(l, 0, pc);
      case TermAgree(acc) => AgreeCosts(l, 0, pc);
      case TermReap(acc) => ReapCosts(l, 0, pc);
    }
  }

  lemma {:induction false} SearchCosts(l: Link, g: Fifos)
    requires StepNode(l, g).Moved?
    requires l.proc.pc.XSend? || l.proc.pc.XAwait? || l.proc.pc.XJoin?
    ensures Work(StepNode(l, g).link) < Pot(l)
  {
    var pc := StepNode(l, g).link.proc.pc;
    match l.proc.pc {
      case XSend(i, x) =>
        SendCosts(l, i, Line(if x.found + x.here == 1 then FoundOne(x.a, x.b) else Exchange(x.a, x.b)), pc);
      case XAwait(i, x) => ListenCosts(l, i, pc);
      case XJoin(j, x) => ListenCosts(l, if j == 0 then x.wait0 else x.wait1, pc);
    }
  }

  lemma {:induction false} LastCosts(l: Link, g: Fifos)
    requires StepNode(l, g).Moved?
    requires match l.proc.pc
             case Boot => true case SpawnReply(_, _) => true case KillReply(_, _, _) => true case TermReply(_) => true
             case TermWait => true case XReport(_) => true case XFifo(_, _, _) => true case XReply(_) => true
             case _ => false
    ensures Work(StepNode(l, g).link) < Pot(l)
  {
    StayCosts(l, StepNode(l, g).link);
  }

  /** Every step of a process lowers what it owes, in any configuration whatever in which a
      permission to exit is only sent to a process that does not wait for a command. */
  lemma {:induction false} NodeCosts(l: Link, g: Fifos)
    requires StepNode(l, g).Moved?
    requires l.proc.pc.KillAgree? && l.proc.pc.i < |l.proc.kids| ==> l.proc.kids[l.proc.pc.i].proc.pc != Ready
    requires l.proc.pc.TermAgree? && |l.proc.kids| > 0 ==> l.proc.kids[0].proc.pc != Ready
    ensures Work(StepNode(l, g).link) < Pot(l)
  {
    var pc := l.proc.pc;
    if pc == Ready { StartCosts(l, g); }
    else if pc.SpawnFork? || pc.SpawnSend? || pc.SpawnAwait? || pc.SpawnBooted? { SpawnCosts(l, g); }
    else if pc.KillSend? || pc.KillAwait? || pc.KillAgree? || pc.KillReap? { KillCosts(l, g); }
    else if pc.TermSend? || pc.TermAwait? || pc.TermAgree? || pc.TermReap? { TermCosts(l, g); }
    else if pc.XSend? || pc.XAwait? || pc.XJoin? { SearchCosts(l, g); }
    else { LastCosts(l, g); }
  }
}
