/** Steps of an `exchange` in the subtrees that have reported. */
module ExchangeActs {
  import opened ServiceTree
  import opened ServiceMachine
  import opened ServiceMeasure
  import opened FifoSwap
  import opened ExchangeState

  /** What an exchange asks of subtree t: each name at most once, and the secrets as e records them. */
  ghost predicate Fit(t: Tree, e: Pair) {
    e.a != e.b && Room(t, e, 0, 0) && Holds(t, e) && Plain(t.kids)
  }

  lemma {:induction false} FitKid(t: Tree, e: Pair, i: nat)
    requires Fit(t, e) && i < |t.kids|
    ensures Fit(t.kids[i], e) && t.kids[i].name != MANAGER
  {
    Apart(t, e, i);
  }

  /** What services a and b have printed when they stand at p. */
  function Acquisitions(e: Pair, p: Pos): seq<Event> {
    (if p.a >= 5 then [Acquired(e.a, e.b, e.sb)] else []) + (if p.b >= 9 then [Acquired(e.b, e.a, e.sa)] else [])
  }

  /** What a move from p to q prints. */
  function Gained(e: Pair, p: Pos, q: Pos): seq<Event> {
    if p.a < 5 && q.a >= 5 then [Acquired(e.a, e.b, e.sb)]
    else if p.b < 9 && q.b >= 9 then [Acquired(e.b, e.a, e.sa)]
    else []
  }

  /** Subtree t, done with its part. */
  ghost predicate Swapped(l: Link, t: Tree, e: Pair, p: Pos, rest: seq<Down>, c: seq<Up>) {
    l == Link(rest, if t.name == MANAGER then [] else c + [Byte(0)], Rest(Swap(t, e))) && ThroughTree(t, e, p)
  }

  // ---------- the process itself ----------

  lemma {:induction false} NotWaited(x: Search, t: Tree, e: Pair, k: Link, p: Pos, i: nat)
    requires i < |t.kids| && Waits(x, t, e, |t.kids|) && i != x.wait0 && i != x.wait1
    requires Settled(k, t.kids[i], e, p)
    ensures Joined(k, t.kids[i], e, p)
  {
    SwapNone(t.kids[i], e);
  }

  /** Joining children, once j of the two entries of `to_wait` are dealt with. */
  lemma {:induction false} EnterJoin(l: Link, t: Tree, e: Pair, p: Pos, rest: seq<Down>, c: seq<Up>, x: Search, j: nat)
    requires l.down == rest && l.up == c && l.proc.name == t.name && |l.proc.kids| == |t.kids|
    requires x.a == e.a && x.b == e.b && Waits(x, t, e, |t.kids|)
    requires l.proc.secret == NewSecret(t, e) && ThroughOwn(t, e, p)
    requires j <= 2 && l.proc.pc == JoinAt(j, x)
    requires forall i :: 0 <= i < |t.kids| ==>
      if (j >= 1 && i == x.wait0) || (j >= 2 && i == x.wait1) then Joined(l.proc.kids[i], t.kids[i], e, p)
      else Settled(l.proc.kids[i], t.kids[i], e, p)
    ensures Acting(l, t, e, p, rest, c)
  {
    if l.proc.pc.XReply? {
      forall i | 0 <= i < |t.kids| ensures Joined(l.proc.kids[i], t.kids[i], e, p) {
        if i != x.wait0 && i != x.wait1 { NotWaited(x, t, e, l.proc.kids[i], p, i); }
      }
    }
  }

  /** The children do not notice a fifo operation of their parent. */
  lemma {:induction false} OwnMove(kids: seq<Link>, t: Tree, e: Pair, p: Pos, q: Pos)
    requires Fit(t, e) && SettledKids(kids, t, e, p, -1) && MovesOwn(t, e, p, q)
    ensures SettledKids(kids, t, e, q, -1)
  {
    forall j | 0 <= j < |t.kids| ensures SameTree(t.kids[j], e, p, q) {
      Apart(t, e, j);
    }
    KidsFrame(kids, t, e, p, q, -1);
  }

  lemma {:induction false} ScriptStep(l: Link, t: Tree, e: Pair, p: Pos) returns (q: Pos)
    requires Fit(t, e) && Met(p) && l.proc.name == t.name && l.proc.secret == t.secret
    requires l.proc.pc.XFifo? && l.proc.pc.x.a == e.a && l.proc.pc.x.b == e.b && OwnHits(t, e) > 0
    requires l.proc.pc.k == (if t.name == e.a then p.a else p.b) < SCRIPT_LEN
    requires StepNode(l, Files(e, p)).Moved?
    ensures q == Advance(p, t.name == e.a) && Met(q) && MovesOwn(t, e, p, q)
    ensures var m, k, x := StepNode(l, Files(e, p)), l.proc.pc.k, l.proc.pc.x;
            var got := if k == (if t.name == e.a then 4 else 8) then (if t.name == e.a then e.sb else e.sa)
                else l.proc.pc.got;
            && m.fifos == Files(e, q) && m.ev == Gained(e, p, q)
            && m.link == if k + 1 < SCRIPT_LEN then Goto(l, XFifo(k + 1, x, got))
                         else Link(l.down, l.up, Proc(t.name, got, JoinAt(0, x), l.proc.kids))
  {
    q := Advance(p, t.name == e.a);
    if t.name == e.a { StepA(e, p); } else { StepB(e, p); }
  }

  lemma {:induction false} FifoMove(l: Link, t: Tree, e: Pair, p: Pos, rest: seq<Down>, c: seq<Up>) returns (q: Pos)
    requires Acting(l, t, e, p, rest, c) && Fit(t, e) && Met(p) && l.proc.pc.XFifo?
    requires StepNode(l, Files(e, p)).Moved?
    ensures Goes(p, q) && MovesOwn(t, e, p, q)
    ensures var m := StepNode(l, Files(e, p));
            Acting(m.link, t, e, q, rest, c) && m.fifos == Files(e, q) && m.ev == Gained(e, p, q)
  {
    q := ScriptStep(l, t, e, p);
    OwnMove(l.proc.kids, t, e, p, q);
    if l.proc.pc.k + 1 == SCRIPT_LEN {
      EnterJoin(StepNode(l, Files(e, p)).link, t, e, q, rest, c, l.proc.pc.x, 0);
    }
  }

  /** A child that has said something after its count has said that it is through. */
  lemma {:induction false} Spoke(k: Link, t: Tree, e: Pair, p: Pos)
    requires Settled(k, t, e, p) && k.up != []
    ensures k.up == [Byte(0)] && Joined(Link(k.down, [], k.proc), t, e, p)
  {
    assert Hits(t, e) > 0 && !Acting(k, t, e, p, [], []);
    assert [] + [Byte(0)] == [Byte(0)];
  }

  lemma {:induction false} JoinMove(l: Link, t: Tree, e: Pair, p: Pos, rest: seq<Down>, c: seq<Up>, g: Fifos)
    requires Acting(l, t, e, p, rest, c) && l.proc.pc.XJoin? && StepNode(l, g).Moved?
    ensures var m := StepNode(l, g); Acting(m.link, t, e, p, rest, c) && m.fifos == g && m.ev == []
  {
    var j, x := l.proc.pc.j, l.proc.pc.x;
    var i := if j == 0 then x.wait0 else x.wait1;
    var m := StepNode(l, g).link;
    Spoke(l.proc.kids[i], t.kids[i], e, p);
    assert m.proc.kids[i] == Link(l.proc.kids[i].down, [], l.proc.kids[i].proc);
    EnterJoin(m, t, e, p, rest, c, x, j + 1);
  }

  lemma {:induction false} ThroughAll(t: Tree, e: Pair, p: Pos)
    requires ThroughOwn(t, e, p)
    requires forall j :: 0 <= j < |t.kids| ==> ThroughTree(t.kids[j], e, p)
    ensures ThroughTree(t, e, p)
  {
    ThroughName(t, e.a, |t.kids|);
    ThroughName(t, e.b, |t.kids|);
  }

  /** A name that occurs below t occurs below one of its children. */
  lemma {:induction false} ThroughName(t: Tree, n: Name, m: nat)
    requires m <= |t.kids|
    ensures NamedUpto(t.kids, n, m) > 0 ==> exists j :: 0 <= j < m && Named(t.kids[j], n) > 0
  {
    if m > 0 { ThroughName(t, n, m - 1); }
  }

  lemma {:induction false} ReplyMove(l: Link, t: Tree, e: Pair, p: Pos, rest: seq<Down>, c: seq<Up>, g: Fifos)
    requires Acting(l, t, e, p, rest, c) && l.proc.pc.XReply? && (t.name == MANAGER ==> c == [])
    ensures var m := StepNode(l, g);
            && Swapped(m.link, t, e, p, rest, c) && m.fifos == g
            && m.ev == if t.name == MANAGER then [Exchanged(e.a, e.b)] else []
  {
    ThroughAll(t, e, p);
    assert l.proc.kids == Rest(Swap(t, e)).kids;
  }

  /** What the process at the top prints besides the secrets: the Manager's last line. */
  function Closing(l: Link, e: Pair, path: seq<nat>): seq<Event> {
    if path == [] && l.proc.pc.XReply? && l.proc.name == MANAGER then [Exchanged(e.a, e.b)] else []
  }

  lemma {:induction false} NodeMove(l: Link, t: Tree, e: Pair, p: Pos, rest: seq<Down>, c: seq<Up>) returns (q: Pos)
    requires Acting(l, t, e, p, rest, c) && Fit(t, e) && Met(p) && (t.name == MANAGER ==> c == [])
    requires StepNode(l, Files(e, p)).Moved?
    ensures Goes(p, q) && MovesTree(t, e, p, q)
    ensures var m := StepNode(l, Files(e, p));
            && (if l.proc.pc.XReply? then Swapped(m.link, t, e, q, rest, c) else Acting(m.link, t, e, q, rest, c))
            && m.fifos == Files(e, q) && m.ev == Gained(e, p, q) + Closing(l, e, [])
  {
    q := p;
    if l.proc.pc.XFifo? { q := FifoMove(l, t, e, p, rest, c); }
    else if l.proc.pc.XJoin? { JoinMove(l, t, e, p, rest, c, Files(e, p)); }
    else { ReplyMove(l, t, e, p, rest, c, Files(e, p)); }
  }

  lemma {:induction false} NodeCost(l: Link, t: Tree, e: Pair, p: Pos, rest: seq<Down>, c: seq<Up>, g: Fifos)
    requires Acting(l, t, e, p, rest, c) && StepNode(l, g).Moved?
    ensures Work(StepNode(l, g).link) < Pot(l)
  {
    NodeCosts(l, g);
  }

  // ---------- steps anywhere below ----------

  /** Child i moved and nothing else did. */
  lemma {:induction false} KidsMove(kids: seq<Link>, t: Tree, e: Pair, p: Pos, q: Pos, but: int, i: nat, k: Link)
    requires Fit(t, e) && SettledKids(kids, t, e, p, but) && i < |t.kids|
    requires MovesTree(t.kids[i], e, p, q) && Settled(k, t.kids[i], e, q)
    ensures SettledKids(kids[i := k], t, e, q, but)
  {
    Apart(t, e, i);
    forall j | 0 <= j < |t.kids| && j != but ensures Settled(kids[i := k][j], t.kids[j], e, q) {
      if j != i { SettledFrame(kids[j], t.kids[j], e, p, q); }
    }
  }

  lemma {:induction false} KidMove(l: Link, t: Tree, e: Pair, p: Pos, q: Pos, rest: seq<Down>, c: seq<Up>, i: nat,
      k: Link)
    requires Fit(t, e) && Acting(l, t, e, p, rest, c) && i < |t.kids|
    requires MovesTree(t.kids[i], e, p, q) && Settled(k, t.kids[i], e, q)
    requires l.proc.pc.XFifo? || (l.proc.pc.XJoin? && (l.proc.pc.j == 1 ==> i != l.proc.pc.x.wait0))
    ensures Acting(SetKid(l, i, k), t, e, q, rest, c)
  {
    var pc := l.proc.pc;
    Apart(t, e, i);
    if pc.XFifo? {
      KidsMove(l.proc.kids, t, e, p, q, -1, i, k);
    } else {
      KidsMove(l.proc.kids, t, e, p, q, if pc.j == 0 then -1 else pc.x.wait0, i, k);
    }
  }

  lemma {:induction false} KidStuck(l: Link, t: Tree, e: Pair, p: Pos, rest: seq<Down>, c: seq<Up>, g: Fifos,
      path: seq<nat>)
    requires Acting(l, t, e, p, rest, c) && path != [] && path[0] < |t.kids|
    requires l.proc.pc.XReply? || (l.proc.pc.XJoin? && l.proc.pc.j == 1 && path[0] == l.proc.pc.x.wait0)
    ensures StepAt(l, g, path) == Blocked
  {
    QuietStuck([], Swap(t.kids[path[0]], e), g, path[1..]);
  }

  lemma {:induction false} PostedStep(k: Link, t: Tree, e: Pair, p: Pos, c: seq<Up>, path: seq<nat>) returns (q: Pos)
    requires Posted(k, t, e, p, c) && Fit(t, e) && Met(p) && t.name != MANAGER
    requires StepAt(k, Files(e, p), path).Moved?
    ensures Goes(p, q) && MovesTree(t, e, p, q)
    ensures var m := StepAt(k, Files(e, p), path);
            && Posted(m.link, t, e, q, c) && m.fifos == Files(e, q) && m.ev == Gained(e, p, q)
            && Pot(m.link) < Pot(k)
    decreases path, 2
  {
    if !Acting(k, t, e, p, [], c) { QuietStuck(k.up, Swap(t, e), Files(e, p), path); }
    q := ActingStep(k, t, e, p, [], c, path);
  }

  lemma {:induction false} KidActs(l: Link, t: Tree, e: Pair, p: Pos, rest: seq<Down>, c: seq<Up>, path: seq<nat>)
      returns (q: Pos)
    requires Acting(l, t, e, p, rest, c) && Fit(t, e) && Met(p) && path != []
    requires StepAt(l, Files(e, p), path).Moved?
    ensures Goes(p, q) && MovesTree(t, e, p, q)
    ensures var m := StepAt(l, Files(e, p), path);
            && Acting(m.link, t, e, q, rest, c) && m.fifos == Files(e, q) && m.ev == Gained(e, p, q)
            && Pot(m.link) < Pot(l)
    decreases path, 0
  {
    var i := path[0];
    var pc := l.proc.pc;
    if pc.XReply? || (pc.XJoin? && pc.j == 1 && i == pc.x.wait0) {
      KidStuck(l, t, e, p, rest, c, Files(e, p), path);
    }
    var k := l.proc.kids[i];
    assert Settled(k, t.kids[i], e, p);
    if Hits(t.kids[i], e) == 0 { QuietStuck([], t.kids[i], Files(e, p), path[1..]); }
    FitKid(t, e, i);
    q := PostedStep(k, t.kids[i], e, p, [], path[1..]);
    var m := StepAt(k, Files(e, p), path[1..]).link;
    KidMove(l, t, e, p, q, rest, c, i, m);
    KidCosts(l, i, m);
    Apart(t, e, i);
  }

  /** Any step after the report: the scripts advance, or the children are joined. */
  lemma {:induction false} ActingStep(l: Link, t: Tree, e: Pair, p: Pos, rest: seq<Down>, c: seq<Up>, path: seq<nat>)
      returns (q: Pos)
    requires Acting(l, t, e, p, rest, c) && Fit(t, e) && Met(p) && (t.name == MANAGER ==> c == [])
    requires StepAt(l, Files(e, p), path).Moved?
    ensures Goes(p, q) && MovesTree(t, e, p, q)
    ensures var m := StepAt(l, Files(e, p), path);
            && (if path == [] && l.proc.pc.XReply? then Swapped(m.link, t, e, q, rest, c)
                else Acting(m.link, t, e, q, rest, c))
            && m.fifos == Files(e, q) && m.ev == Gained(e, p, q) + Closing(l, e, path)
            && Work(m.link) < Pot(l)
    decreases path, 1
  {
    if path == [] {
      q := NodeMove(l, t, e, p, rest, c);
      NodeCost(l, t, e, p, rest, c, Files(e, p));
    } else {
      q := KidActs(l, t, e, p, rest, c, path);
    }
  }

  // ---------- something can move ----------

  /** A child with a script that is not through is still acting. */
  lemma {:induction false} KidActing(l: Link, t: Tree, e: Pair, p: Pos, rest: seq<Down>, c: seq<Up>, i: nat)
    requires Acting(l, t, e, p, rest, c) && i < |t.kids| && !ThroughTree(t.kids[i], e, p)
    ensures Acting(l.proc.kids[i], t.kids[i], e, p, [], [])
  {
    assert Settled(l.proc.kids[i], t.kids[i], e, p);
    PostedActs(l.proc.kids[i], t.kids[i], e, p);
  }

  lemma {:induction false} PostedActs(k: Link, t: Tree, e: Pair, p: Pos)
    requires Posted(k, t, e, p, []) && !ThroughTree(t, e, p)
    ensures Acting(k, t, e, p, [], [])
  {
  }

  /** The way to service a, or b, which has not finished its script. */
  lemma {:induction false} FindScript(l: Link, t: Tree, e: Pair, p: Pos, rest: seq<Down>, c: seq<Up>, first: bool)
      returns (path: seq<nat>)
    requires Acting(l, t, e, p, rest, c) && Fit(t, e)
    requires if first then p.a < SCRIPT_LEN && Named(t, e.a) > 0 else p.b < SCRIPT_LEN && Named(t, e.b) > 0
    requires FifoStep(Op(e, p, first), Files(e, p), Secret(e, first)).Done?
    ensures StepAt(l, Files(e, p), path).Moved?
    decreases t
  {
    var n := if first then e.a else e.b;
    if t.name == n {
      path := [];
    } else {
      ThroughName(t, n, |t.kids|);
      var i :| 0 <= i < |t.kids| && Named(t.kids[i], n) > 0;
      KidActing(l, t, e, p, rest, c, i);
      FitKid(t, e, i);
      var sub := FindScript(l.proc.kids[i], t.kids[i], e, p, [], [], first);
      path := [i] + sub;
      assert path[1..] == sub;
    }
  }

  /** When the scripts are through, the joins go through. */
  lemma {:induction false} FindJoin(l: Link, t: Tree, e: Pair, p: Pos, rest: seq<Down>, c: seq<Up>)
      returns (path: seq<nat>)
    requires Acting(l, t, e, p, rest, c) && Fit(t, e) && ThroughTree(t, e, p)
    ensures StepAt(l, Files(e, p), path).Moved?
    decreases t
  {
    path := [];
    var pc := l.proc.pc;
    assert ThroughOwn(t, e, p);
    if pc.XJoin? {
      var i := if pc.j == 0 then pc.x.wait0 else pc.x.wait1;
      var k := l.proc.kids[i];
      assert Settled(k, t.kids[i], e, p);
      assert Posted(k, t.kids[i], e, p, []);
      if Acting(k, t.kids[i], e, p, [], []) {
        Apart(t, e, i);
        FitKid(t, e, i);
        var sub := FindJoin(k, t.kids[i], e, p, [], []);
        path := [i] + sub;
        assert path[1..] == sub;
      }
    }
  }

  /** The Manager has two services that swap: there is always a step to take. */
  lemma {:induction false} ActingProgress(l: Link, t: Tree, e: Pair, p: Pos, rest: seq<Down>, c: seq<Up>)
      returns (path: seq<nat>)
    requires Acting(l, t, e, p, rest, c) && Fit(t, e) && Met(p) && Named(t, e.a) == 1 == Named(t, e.b)
    ensures StepAt(l, Files(e, p), path).Moved?
  {
    if p.a < SCRIPT_LEN || p.b < SCRIPT_LEN {
      NoDeadlock(e, p);
      path := FindScript(l, t, e, p, rest, c, p.a < SCRIPT_LEN && FifoStep(Op(e, p, true), Files(e, p), e.sa).Done?);
    } else {
      path := FindJoin(l, t, e, p, rest, c);
    }
  }

  // ---------- what never happens ----------

  lemma {:induction false} SettledTidy(k: Link, t: Tree, e: Pair, p: Pos)
    requires Settled(k, t, e, p)
    ensures k.down == [] && Tidy(k.proc)
    decreases t, 2
  {
    if Hits(t, e) == 0 { RestTidy(t); } else { PostedTidy(k, t, e, p, []); }
  }

  lemma {:induction false} PostedTidy(k: Link, t: Tree, e: Pair, p: Pos, c: seq<Up>)
    requires Posted(k, t, e, p, c)
    ensures k.down == [] && Tidy(k.proc)
    decreases t, 1
  {
    if Acting(k, t, e, p, [], c) { ActingTidy(k, t, e, p, [], c); } else { RestTidy(Swap(t, e)); }
  }

  lemma {:induction false} ActingTidy(l: Link, t: Tree, e: Pair, p: Pos, rest: seq<Down>, c: seq<Up>)
    requires Acting(l, t, e, p, rest, c)
    ensures l.down == rest && l.proc.pc != Ready && Tidy(l.proc)
    decreases t, 0
  {
    forall i | 0 <= i < |t.kids| ensures l.proc.kids[i].down == [] && Tidy(l.proc.kids[i].proc) {
      if Joined(l.proc.kids[i], t.kids[i], e, p) { RestTidy(Swap(t.kids[i], e)); }
      else { SettledTidy(l.proc.kids[i], t.kids[i], e, p); }
    }
  }
}
