/** `spawn`, run by processes and pipes, refines insertion into the tree. */
module SpawnRefines {
  import opened ServiceTree
  import opened ServiceMachine
  import opened ServiceMeasure

  /** Subtree t has been sent command c and is carrying it out; it has printed `seen` so far.
      `rest` is what remains on the Manager's standard input. */
  ghost predicate Running(l: Link, t: Tree, c: Cmd, rest: seq<Down>, seen: seq<Event>)
    requires c.Spawn?
    decreases t
  {
    (l == Link([Line(c)] + rest, [], Rest(t)) && seen == []) || Working(l, t, c, rest, seen)
  }

  ghost predicate Working(l: Link, t: Tree, c: Cmd, rest: seq<Down>, seen: seq<Event>)
    requires c.Spawn?
    decreases t, 0
  {
    var kids := l.proc.kids;
    && l.down == rest && l.up == [] && l.proc.name == t.name && l.proc.secret == t.secret
    && (match l.proc.pc
        case SpawnSend(i, d) =>
          && d == c && t.name != c.parent && i < |t.kids|
          && Still(kids, t.kids, -1) && Searched(t.kids, i, c.parent)
          && seen == [Received(t.name, c)] + SpawnVisitsAny(t.kids[..i], c)
        case SpawnAwait(i, d) =>
          && d == c && t.name != c.parent && i < |t.kids|
          && Still(kids, t.kids, i) && Searched(t.kids, i, c.parent)
          && var before := [Received(t.name, c)] + SpawnVisitsAny(t.kids[..i], c);
          && before <= seen
          && (Running(kids[i], t.kids[i], c, [], seen[|before|..])
              || Finished(kids[i], t.kids[i], c, [], seen[|before|..]))
        case SpawnFork(d) =>
          d == c && t.name == c.parent && Still(kids, t.kids, -1) && seen == [Received(t.name, c)]
        case SpawnBooted(d) =>
          && d == c && t.name == c.parent
          && |kids| == |t.kids| + 1 && Still(kids[..|t.kids|], t.kids, -1)
          && ((kids[|t.kids|] == Link([], [], Proc(c.child, c.seed, Boot, [])) && seen == [Received(t.name, c)])
              || (kids[|t.kids|] == Link([], [Byte(1)], Rest(Node(c.child, c.seed, []))) && seen == SpawnVisits(t, c)))
        case SpawnReply(d, ok) =>
          d == c && ok == Has(t, c.parent) && Still(kids, Insert(t, c).kids, -1) && seen == SpawnVisits(t, c)
        case _ => false)
  }

  /** The command is over: the subtree is at rest as the new tree and the answer is in the pipe. */
  ghost predicate Finished(l: Link, t: Tree, c: Cmd, rest: seq<Down>, seen: seq<Event>)
    requires c.Spawn?
  {
    && l == Link(rest, if t.name == MANAGER then [] else [Byte(if Has(t, c.parent) then 1 else 0)], Rest(Insert(t, c)))
    && seen == SpawnLog(t, c)
  }

  // ---------- the search through the children ----------

  lemma {:induction false} VisitNext(ts: seq<Tree>, i: nat, c: Cmd)
    requires c.Spawn? && i < |ts| && Searched(ts, i, c.parent)
    ensures SpawnVisitsAny(ts[..i + 1], c) == SpawnVisitsAny(ts[..i], c) + SpawnVisits(ts[i], c)
  {
    if i == 0 {
      assert ts[..1] == [ts[0]];
    } else {
      VisitNext(ts[1..], i - 1, c);
      assert ts[..i + 1][1..] == ts[1..][..i] && ts[..i][1..] == ts[1..][..i - 1];
    }
  }

  lemma {:induction false} FoundAt(ts: seq<Tree>, i: nat, c: Cmd)
    requires c.Spawn? && i < |ts| && Searched(ts, i, c.parent) && Has(ts[i], c.parent)
    ensures SpawnVisitsAny(ts, c) == SpawnVisitsAny(ts[..i], c) + SpawnVisits(ts[i], c)
    ensures InsertAny(ts, c) == ts[i := Insert(ts[i], c)]
  {
    if i > 0 {
      FoundAt(ts[1..], i - 1, c);
      assert ts[..i][1..] == ts[1..][..i - 1];
    }
  }

  lemma {:induction false} NotFound(ts: seq<Tree>, c: Cmd)
    requires c.Spawn? && Searched(ts, |ts|, c.parent)
    ensures InsertAny(ts, c) == ts
  {
    if ts != [] {
      NotFound(ts[1..], c);
    }
  }

  /** Where the search goes once child i has answered. */
  lemma {:induction false} Resume(l: Link, t: Tree, c: Cmd, i: nat, seen: seq<Event>)
    requires c.Spawn? && t.name != c.parent && Plain(t.kids) && i <= |t.kids|
    requires l.up == [] && l.proc.name == t.name && l.proc.secret == t.secret
    requires Searched(t.kids, i, c.parent) && Still(l.proc.kids, t.kids, -1)
    requires seen == [Received(t.name, c)] + SpawnVisitsAny(t.kids[..i], c)
    requires l.proc.pc == SpawnAt(i, |t.kids|, c)
    ensures Working(l, t, c, l.down, seen)
  {
    if i == |t.kids| {
      NotFound(t.kids, c);
      assert t.kids[..i] == t.kids;
    }
  }

  /** A child that still works on the command has not answered. */
  lemma {:induction false} Answered(k: Link, t: Tree, c: Cmd, seen: seq<Event>)
    requires c.Spawn? && t.name != MANAGER && Running(k, t, c, [], seen)
    ensures k.up == []
  {
  }

  lemma {:induction false} HeardYes(l: Link, t: Tree, c: Cmd, rest: seq<Down>, seen: seq<Event>, i: nat, g: Fifos)
    requires c.Spawn? && Plain(t.kids) && Working(l, t, c, rest, seen) && l.proc.pc == SpawnAwait(i, c)
    requires StepNode(l, g).Moved? && Has(t.kids[i], c.parent)
    ensures Working(StepNode(l, g).link, t, c, rest, seen)
  {
    var k := l.proc.kids[i];
    var before := [Received(t.name, c)] + SpawnVisitsAny(t.kids[..i], c);
    if Running(k, t.kids[i], c, [], seen[|before|..]) { Answered(k, t.kids[i], c, seen[|before|..]); }
    assert seen == before + SpawnVisits(t.kids[i], c);
    FoundAt(t.kids, i, c);
    StillSet(l.proc.kids, t.kids, i, Insert(t.kids[i], c));
  }

  lemma {:induction false} HeardNo(l: Link, t: Tree, c: Cmd, rest: seq<Down>, seen: seq<Event>, i: nat, g: Fifos)
    requires c.Spawn? && Plain(t.kids) && Working(l, t, c, rest, seen) && l.proc.pc == SpawnAwait(i, c)
    requires StepNode(l, g).Moved? && !Has(t.kids[i], c.parent)
    ensures Working(StepNode(l, g).link, t, c, rest, seen)
  {
    var k := l.proc.kids[i];
    var before := [Received(t.name, c)] + SpawnVisitsAny(t.kids[..i], c);
    if Running(k, t.kids[i], c, [], seen[|before|..]) { Answered(k, t.kids[i], c, seen[|before|..]); }
    assert seen == before + SpawnVisits(t.kids[i], c);
    NotFound(t.kids[i].kids, c);
    VisitNext(t.kids, i, c);
    Resume(StepNode(l, g).link, t, c, i + 1, seen);
  }

  lemma {:induction false} Sent(l: Link, t: Tree, c: Cmd, rest: seq<Down>, seen: seq<Event>, i: nat, g: Fifos)
    requires c.Spawn? && Plain(t.kids) && Working(l, t, c, rest, seen) && l.proc.pc == SpawnSend(i, c)
    ensures StepNode(l, g).ev == [] && Working(StepNode(l, g).link, t, c, rest, seen)
  {
    var m := StepNode(l, g).link;
    var before := [Received(t.name, c)] + SpawnVisitsAny(t.kids[..i], c);
    assert m.proc.kids[i] == Link([Line(c)] + [], [], Rest(t.kids[i]));
    assert seen[|before|..] == [];
    assert Running(m.proc.kids[i], t.kids[i], c, [], []);
  }

  lemma {:induction false} Forked(l: Link, t: Tree, c: Cmd, rest: seq<Down>, seen: seq<Event>, g: Fifos)
    requires c.Spawn? && Working(l, t, c, rest, seen) && l.proc.pc == SpawnFork(c)
    ensures StepNode(l, g).ev == [] && Working(StepNode(l, g).link, t, c, rest, seen)
  {
    var m := StepNode(l, g).link;
    assert m.proc.kids[..|t.kids|] == l.proc.kids;
  }

  lemma {:induction false} ChildUp(l: Link, t: Tree, c: Cmd, rest: seq<Down>, seen: seq<Event>, g: Fifos)
    requires c.Spawn? && Working(l, t, c, rest, seen) && l.proc.pc == SpawnBooted(c) && StepNode(l, g).Moved?
    ensures StepNode(l, g).ev == [] && Working(StepNode(l, g).link, t, c, rest, seen)
  {
    var m := StepNode(l, g).link;
    var n := |t.kids|;
    assert m.proc.kids[..n] == l.proc.kids[..n];
    assert m.proc.kids[n] == Quiet(Node(c.child, c.seed, []));
    assert Still(m.proc.kids, Insert(t, c).kids, -1) by {
      forall j | 0 <= j < n ensures m.proc.kids[j] == Quiet(t.kids[j]) {
        assert m.proc.kids[..n][j] == Quiet(t.kids[j]);
      }
    }
  }

  lemma {:induction false} Replied(l: Link, t: Tree, c: Cmd, rest: seq<Down>, seen: seq<Event>, ok: bool, g: Fifos)
    requires c.Spawn? && Working(l, t, c, rest, seen) && l.proc.pc == SpawnReply(c, ok)
    ensures Finished(StepNode(l, g).link, t, c, rest, seen + StepNode(l, g).ev)
  {
    assert l.proc.kids == Rest(Insert(t, c)).kids;
    assert SpawnVisits(t, c) + [] == SpawnVisits(t, c);
  }

  lemma {:induction false} Started(l: Link, t: Tree, c: Cmd, rest: seq<Down>, g: Fifos)
    requires c.Spawn? && Plain(t.kids) && (t.name != MANAGER ==> rest == [])
    requires l == Link([Line(c)] + rest, [], Rest(t))
    ensures Working(StepNode(l, g).link, t, c, rest, StepNode(l, g).ev)
  {
    var m := StepNode(l, g);
    assert ([Line(c)] + rest)[1..] == rest;
    if t.name != c.parent {
      assert t.kids[..0] == [];
      assert m.ev == [Received(t.name, c)] + SpawnVisitsAny(t.kids[..0], c);
      Resume(m.link, t, c, 0, m.ev);
    }
  }

  lemma {:induction false} NodeStep(l: Link, t: Tree, c: Cmd, rest: seq<Down>, seen: seq<Event>, g: Fifos)
    requires c.Spawn? && Plain(t.kids) && (t.name != MANAGER ==> rest == [])
    requires Running(l, t, c, rest, seen) && StepNode(l, g).Moved?
    ensures Working(StepNode(l, g).link, t, c, rest, seen + StepNode(l, g).ev)
         || Finished(StepNode(l, g).link, t, c, rest, seen + StepNode(l, g).ev)
  {
    assert seen + [] == seen;
    var pc := l.proc.pc;
    if pc == Ready { Started(l, t, c, rest, g); }
    else if pc.SpawnSend? { Sent(l, t, c, rest, seen, pc.i, g); }
    else if pc.SpawnAwait? {
      if Has(t.kids[pc.i], c.parent) { HeardYes(l, t, c, rest, seen, pc.i, g); }
          else { HeardNo(l, t, c, rest, seen, pc.i, g); }
    }
    else if pc.SpawnFork? { Forked(l, t, c, rest, seen, g); }
    else if pc.SpawnBooted? { ChildUp(l, t, c, rest, seen, g); }
    else { Replied(l, t, c, rest, seen, pc.ok, g); }
  }

  // ---------- steps anywhere in the subtree ----------

  lemma {:induction false} ChildBoots(l: Link, t: Tree, c: Cmd, rest: seq<Down>, seen: seq<Event>, g: Fifos,
      path: seq<nat>)
    requires c.Spawn? && c.child != MANAGER && Working(l, t, c, rest, seen) && l.proc.pc == SpawnBooted(c)
    requires path != [] && StepAt(l, g, path).Moved?
    ensures var m := StepAt(l, g, path);
            && m.fifos == g && Working(m.link, t, c, rest, seen + m.ev) && Pot(m.link) < Pot(l)
  {
    var i := path[0];
    var n := |t.kids|;
    var kids := l.proc.kids;
    if i < n {
      assert kids[..n][i] == Quiet(t.kids[i]);
      QuietStuck([], t.kids[i], g, path[1..]);
    } else {
      QuietStuck([Byte(1)], Node(c.child, c.seed, []), g, path[1..]);
      var m := StepAt(l, g, path);
      assert path[1..] == [];
      assert m.link.proc.kids[..n] == kids[..n];
      assert m.link.proc.kids[n].proc == Rest(Node(c.child, c.seed, []));
      PotSet(kids, n, m.link.proc.kids[n]);
    }
  }

  /** The child that is waited for moves on; its parent keeps waiting. */
  lemma {:induction false} KidMoved(l: Link, t: Tree, c: Cmd, rest: seq<Down>, seen: seq<Event>, ev: seq<Event>,
      k: Link)
    requires c.Spawn? && Working(l, t, c, rest, seen) && l.proc.pc.SpawnAwait?
    requires var i, before := l.proc.pc.i, [Received(t.name, c)] + SpawnVisitsAny(t.kids[..l.proc.pc.i], c);
             Working(k, t.kids[i], c, [], seen[|before|..] + ev) || Finished(k, t.kids[i], c, [], seen[|before|..] + ev)
    ensures Working(SetKid(l, l.proc.pc.i, k), t, c, rest, seen + ev)
  {
    var i, before := l.proc.pc.i, [Received(t.name, c)] + SpawnVisitsAny(t.kids[..l.proc.pc.i], c);
    assert (seen + ev)[|before|..] == seen[|before|..] + ev;
  }

  lemma {:induction false} NotReady(k: Link, t: Tree, c: Cmd, seen: seq<Event>)
    requires c.Spawn? && (Working(k, t, c, [], seen) || Finished(k, t, c, [], seen))
    ensures MsgPot(k) == 0
  {
  }

  lemma {:induction false} AwaitedStep(l: Link, t: Tree, c: Cmd, rest: seq<Down>, seen: seq<Event>, g: Fifos,
      path: seq<nat>)
    requires c.Spawn? && c.child != MANAGER && Plain(t.kids)
    requires Working(l, t, c, rest, seen) && l.proc.pc.SpawnAwait? && path != [] && StepAt(l, g, path).Moved?
    ensures var m := StepAt(l, g, path);
            && m.fifos == g && Working(m.link, t, c, rest, seen + m.ev) && Pot(m.link) < Pot(l)
    decreases path, 0
  {
    var i := l.proc.pc.i;
    var k := l.proc.kids[i];
    if path[0] != i { StillStuck(l, t.kids, i, g, path); }
    var before := [Received(t.name, c)] + SpawnVisitsAny(t.kids[..i], c);
    var sub := seen[|before|..];
    if Finished(k, t.kids[i], c, [], sub) { QuietStuck(k.up, Insert(t.kids[i], c), g, path[1..]); }
    AnyStep(k, t.kids[i], c, [], sub, g, path[1..]);
    var m := StepAt(k, g, path[1..]);
    NotReady(m.link, t.kids[i], c, sub + m.ev);
    KidMoved(l, t, c, rest, seen, m.ev, m.link);
    KidCosts(l, i, m.link);
  }

  lemma {:induction false} KidStep(l: Link, t: Tree, c: Cmd, rest: seq<Down>, seen: seq<Event>, g: Fifos,
      path: seq<nat>)
    requires c.Spawn? && c.child != MANAGER && Plain(t.kids)
    requires Running(l, t, c, rest, seen) && path != [] && StepAt(l, g, path).Moved?
    ensures var m := StepAt(l, g, path);
            && m.fifos == g && Working(m.link, t, c, rest, seen + m.ev) && Pot(m.link) < Pot(l)
    decreases path, 1
  {
    var pc := l.proc.pc;
    if pc.SpawnAwait? { AwaitedStep(l, t, c, rest, seen, g, path); }
    else if pc.SpawnBooted? { ChildBoots(l, t, c, rest, seen, g, path); }
    else { StillStuck(l, if pc.SpawnReply? then Insert(t, c).kids else t.kids, -1, g, path); }
  }

  lemma {:induction false} Costs(l: Link, t: Tree, c: Cmd, rest: seq<Down>, seen: seq<Event>, g: Fifos)
    requires c.Spawn? && Running(l, t, c, rest, seen) && StepNode(l, g).Moved?
    ensures StepNode(l, g).fifos == g && Work(StepNode(l, g).link) < Pot(l)
  {
    NodeCosts(l, g);
  }

  /** Whichever process moves, the command makes progress towards its one outcome. */
  lemma {:induction false} AnyStep(l: Link, t: Tree, c: Cmd, rest: seq<Down>, seen: seq<Event>, g: Fifos,
      path: seq<nat>)
    requires c.Spawn? && c.child != MANAGER && Plain(t.kids) && (t.name != MANAGER ==> rest == [])
    requires Running(l, t, c, rest, seen) && StepAt(l, g, path).Moved?
    ensures var m := StepAt(l, g, path);
            && m.fifos == g && Work(m.link) < Pot(l)
            && (Working(m.link, t, c, rest, seen + m.ev) || Finished(m.link, t, c, rest, seen + m.ev))
    decreases path, 2
  {
    if path == [] {
      NodeStep(l, t, c, rest, seen, g);
      Costs(l, t, c, rest, seen, g);
    } else {
      KidStep(l, t, c, rest, seen, g, path);
    }
  }

  /** Some process can always move. */
  lemma {:induction false} Progress(l: Link, t: Tree, c: Cmd, rest: seq<Down>, seen: seq<Event>, g: Fifos)
      returns (path: seq<nat>)
    requires c.Spawn? && Running(l, t, c, rest, seen) && (t.name != MANAGER ==> rest == []) && Plain(t.kids)
    ensures StepAt(l, g, path).Moved?
    decreases t
  {
    path := [];
    match l.proc.pc {
      case SpawnAwait(i, d) =>
        var before := [Received(t.name, c)] + SpawnVisitsAny(t.kids[..i], c);
        if Running(l.proc.kids[i], t.kids[i], c, [], seen[|before|..]) {
          var sub := Progress(l.proc.kids[i], t.kids[i], c, [], seen[|before|..], g);
          path := [i] + sub;
        }
      case SpawnBooted(d) =>
        if l.proc.kids[|t.kids|].up == [] {
          path := [|t.kids|];
          assert path[1..] == [];
        }
      case _ =>
    }
  }

  lemma {:induction false} RunningTidy(l: Link, t: Tree, c: Cmd, rest: seq<Down>, seen: seq<Event>)
    requires c.Spawn? && Running(l, t, c, rest, seen)
    ensures Tidy(l.proc) && (rest == [] ==> |l.down| <= 1)
    decreases t
  {
    RestTidy(t);
    var pc := l.proc.pc;
    if pc.SpawnAwait? {
      var sub := seen[|[Received(t.name, c)] + SpawnVisitsAny(t.kids[..pc.i], c)|..];
      if Finished(l.proc.kids[pc.i], t.kids[pc.i], c, [], sub) { RestTidy(Insert(t.kids[pc.i], c)); }
      else { RunningTidy(l.proc.kids[pc.i], t.kids[pc.i], c, [], sub); }
      StillTidy(l.proc, t.kids, pc.i);
    } else if pc.SpawnBooted? {
      BootedTidy(l.proc, t, c);
    } else if pc.SpawnReply? { StillTidy(l.proc, Insert(t, c).kids, -1); }
    else { StillTidy(l.proc, t.kids, -1); }
  }

  lemma {:induction false} BootedTidy(p: Proc, t: Tree, c: Cmd)
    requires c.Spawn? && p.pc != Failed && |p.kids| == |t.kids| + 1 && Still(p.kids[..|t.kids|], t.kids, -1)
    requires p.kids[|t.kids|].down == [] && p.kids[|t.kids|].proc.kids == [] && p.kids[|t.kids|].proc.pc != Failed
    ensures Tidy(p)
  {
    forall i | 0 <= i < |t.kids| ensures p.kids[i].down == [] && Tidy(p.kids[i].proc) {
      assert p.kids[..|t.kids|][i] == Quiet(t.kids[i]);
      RestTidy(t.kids[i]);
    }
  }

  lemma {:induction false} RunningReady(l: Link, t: Tree, c: Cmd, rest: seq<Down>, seen: seq<Event>)
    requires c.Spawn? && Running(l, t, c, rest, seen) && l.proc.pc == Ready
    ensures l == Link([Line(c)] + rest, [], Rest(t)) && seen == []
  {
  }
}
