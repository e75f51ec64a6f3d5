/** What each console command makes of the tree and of the terminal, in terms of the preorder listing of the
    services, for every schedule of the processes. */
module ServiceTranscripts {
  import opened ServiceTree
  import opened ServiceMachine
  import opened ServicePreorder
  import SR = ServiceRuns
  import X = ExchangeRefines
  import EA = ExchangeActs
  import FS = FifoSwap

  /** A run of the one command c on tree t, to the point where nothing can move. */
  ghost predicate Complete(t: Tree, c: Cmd, sched: seq<SR.Path>) {
    SR.Legal(SR.Idle(t, [c], []), sched) && SR.Stuck(SR.After(SR.Idle(t, [c], []), sched))
  }

  ghost function End(t: Tree, c: Cmd, sched: seq<SR.Path>): SR.World
    requires Complete(t, c, sched)
  {
    SR.After(SR.Idle(t, [c], []), sched)
  }

  /** Every complete run of c ends in the same way. */
  lemma {:induction false} OneCommand(t: Tree, c: Cmd, sched: seq<SR.Path>)
    requires SR.Fine(t) && SR.Acceptable(t, c) && Complete(t, c, sched)
    ensures var w, s := End(t, c, sched), SR.Do(t, c);
            && w.fifos == map[] && w.log == SR.Says(t, c)
            && w.root == if s.Alive? then Quiet(s.tree) else Link([], [], Proc(t.name, t.secret, Dead, []))
  {
    assert [c][1..] == [];
    assert SR.AcceptableAll(t, [c]);
    SR.Refinement(t, [c], sched);
    assert [] + SR.Says(t, c) == SR.Says(t, c);
  }

  /** There is such a run. */
  lemma {:induction false} CommandEnds(t: Tree, c: Cmd) returns (sched: seq<SR.Path>)
    requires SR.Fine(t) && SR.Acceptable(t, c)
    ensures Complete(t, c, sched)
  {
    assert [c][1..] == [];
    assert SR.AcceptableAll(t, [c]);
    SR.RunIdle(SR.Idle(t, [c], []), t, [c], [], []);
    sched := SR.Finish(SR.Idle(t, [c], []), t, [c], []);
    SR.OutcomeStuck(t, [c], []);
  }

  // ---------- kill ----------

  /** A kill asks the services of the preorder up to the first of that name, the whole slice that starts there is
      gone afterwards, and the number printed is the length of the slice less one, as an unsigned char holds it. */
  lemma {:induction false} KillPrints(t: Tree, n: Name, sched: seq<SR.Path>) returns (u: Tree, k: nat)
    requires SR.Fine(t) && t.name != n && Has(t, n) && Complete(t, Kill(n), sched)
    ensures var w, v := End(t, Kill(n), sched), Walk(Victim(t, n));
            && w.root == Quiet(u) && w.fifos == map[] && Cut(Walk(t), Walk(u), v, n, k)
            && w.log == Sought(Walk(t), n, Kill(n)) + [Killed(n, (|v| - 1) % 256)]
  {
    OneCommand(t, Kill(n), sched);
    u := Remove(t, n);
    k := KillCuts(t, n);
    KillAsks(t, n);
  }

  lemma {:induction false} KillUnknownPrints(t: Tree, n: Name, sched: seq<SR.Path>)
    requires SR.Fine(t) && !Has(t, n) && Complete(t, Kill(n), sched)
    ensures var w := End(t, Kill(n), sched);
            && w.root == Quiet(t) && w.fifos == map[] && w.log == Sought(Walk(t), n, Kill(n)) + [NotExist(n)]
  {
    OneCommand(t, Kill(n), sched);
    KillUnknown(t, n);
    KillAsks(t, n);
  }

  /** When the Manager is killed nobody is left, and everybody else is counted. */
  lemma {:induction false} KillManagerPrints(t: Tree, sched: seq<SR.Path>)
    requires SR.Fine(t) && Complete(t, Kill(MANAGER), sched)
    ensures var w := End(t, Kill(MANAGER), sched);
            && w.root == Link([], [], Proc(t.name, t.secret, Dead, [])) && w.fifos == map[]
            && w.log == [Received(MANAGER, Kill(MANAGER)), Killed(MANAGER, (|Walk(t)| - 1) % 256)]
  {
    OneCommand(t, Kill(MANAGER), sched);
    WalkSize(t);
    KillAsks(t, MANAGER);
    assert Sought(Walk(t), MANAGER, Kill(MANAGER)) == [Received(MANAGER, Kill(MANAGER))];
  }

  // ---------- spawn ----------

  /** A spawn asks the services of the preorder up to the first with the parent's name; the new one, which has the
      secret it has drawn, reports and becomes that service's last child. */
  lemma {:induction false} SpawnPrints(t: Tree, c: Cmd, sched: seq<SR.Path>) returns (u: Tree, k: nat)
    requires SR.Fine(t) && c.Spawn? && c.child != MANAGER && Has(t, c.parent) && Complete(t, c, sched)
    ensures var w, v := End(t, c, sched), Victim(t, c.parent);
            && w.root == Quiet(u) && w.fifos == map[]
            && Grown(Walk(t), Walk(u), Walk(v), c.parent, k, Entry(c.child, c.seed))
            && Has(u, c.parent)
            && Victim(u, c.parent) == Node(v.name, v.secret, v.kids + [Node(c.child, c.seed, [])])
            && w.log == Sought(Walk(t), c.parent, c) + [Booted(c.child, c.seed), Spawned(c.parent, c.child)]
  {
    OneCommand(t, c, sched);
    u := Insert(t, c);
    k := SpawnGrows(t, c);
    SpawnAsks(t, c);
    LastChild(t, c);
    var asked := Sought(Walk(t), c.parent, c);
    assert asked + [Booted(c.child, c.seed)] + [Spawned(c.parent, c.child)] ==
           asked + [Booted(c.child, c.seed), Spawned(c.parent, c.child)];
  }

  lemma {:induction false} SpawnUnknownPrints(t: Tree, c: Cmd, sched: seq<SR.Path>)
    requires SR.Fine(t) && c.Spawn? && c.child != MANAGER && !Has(t, c.parent) && Complete(t, c, sched)
    ensures var w := End(t, c, sched);
            && w.root == Quiet(t) && w.fifos == map[]
            && w.log == Sought(Walk(t), c.parent, c) + [NotExist(c.parent)]
  {
    OneCommand(t, c, sched);
    SpawnUnknown(t, c);
    SpawnAsks(t, c);
    assert Sought(Walk(t), c.parent, c) + [] == Sought(Walk(t), c.parent, c);
  }

  lemma {:induction false} LastChild(t: Tree, c: Cmd)
    requires c.Spawn? && Has(t, c.parent)
    ensures var v := Victim(t, c.parent);
            && Has(Insert(t, c), c.parent)
            && Victim(Insert(t, c), c.parent) == Node(v.name, v.secret, v.kids + [Node(c.child, c.seed, [])])
    decreases t, 1
  {
    if t.name != c.parent { LastChildAny(t.kids, c); }
  }

  lemma {:induction false} LastChildAny(ts: seq<Tree>, c: Cmd)
    requires c.Spawn? && HasAny(ts, c.parent)
    ensures var v := VictimAny(ts, c.parent);
            && HasAny(InsertAny(ts, c), c.parent)
            && VictimAny(InsertAny(ts, c), c.parent) == Node(v.name, v.secret, v.kids + [Node(c.child, c.seed, [])])
    decreases ts, 0
  {
    var us := InsertAny(ts, c);
    if Has(ts[0], c.parent) {
      LastChild(ts[0], c);
      assert Has(us[0], c.parent);
    } else {
      Later(ts, c.parent);
      LastChildAny(ts[1..], c);
      assert us[1..] == InsertAny(ts[1..], c);
      HasLater(us, c.parent);
    }
  }

  // ---------- exchange ----------

  /** An exchange of two services that occur once each asks the services of the preorder up to the second of them;
      each prints the other's secret, a before b, and holds it afterwards, and nothing else has changed. */
  lemma {:induction false} ExchangePrints(t: Tree, a: Name, b: Name, sched: seq<SR.Path>)
      returns (u: Tree, i: nat, j: nat)
    requires SR.Fine(t) && a != b && CountIn(Walk(t), a) == 1 == CountIn(Walk(t), b)
    requires Complete(t, Exchange(a, b), sched)
    ensures var s, w := Walk(t), End(t, Exchange(a, b), sched);
            && w.root == Quiet(u) && w.fifos == map[] && Only(s, a, i) && Only(s, b, j)
            && Walk(u) == s[i := Entry(a, s[j].secret)][j := Entry(b, s[i].secret)]
            && w.log == Asked(s, Pair(a, b, s[i].secret, s[j].secret), 0)
                        + [Acquired(a, b, s[j].secret), Acquired(b, a, s[i].secret), Exchanged(a, b)]
  {
    CountWalk(t, a);
    CountWalk(t, b);
    OneCommand(t, Exchange(a, b), sched);
    var e := SR.Partners(t, a, b);
    SR.PartnersFit(t, a, b);
    u := Swap(t, e);
    i, j := ExchangeSwaps(t, e);
    HoldsWalk(t, e);
    ExchangeAsks(t, e, 0);
    var asked := Asked(Walk(t), e, 0);
    assert X.Complaint(t, e) == [];
    assert asked + [] + ([Acquired(a, b, e.sb)] + [Acquired(b, a, e.sa)] + [Exchanged(a, b)]) ==
           asked + [Acquired(a, b, e.sb), Acquired(b, a, e.sa), Exchanged(a, b)];
  }

  lemma {:induction false} ExchangeUnknownPrints(t: Tree, a: Name, b: Name, sched: seq<SR.Path>)
    requires SR.Fine(t) && a != b && Free(Walk(t), a) && Free(Walk(t), b) && Complete(t, Exchange(a, b), sched)
    ensures var w := End(t, Exchange(a, b), sched);
            && w.root == Quiet(t) && w.fifos == map[]
            && w.log == Asked(Walk(t), Pair(a, b, 0, 0), 0) + [Missing(a, b)]
  {
    NoneIn(Walk(t), a);
    NoneIn(Walk(t), b);
    CountWalk(t, a);
    CountWalk(t, b);
    OneCommand(t, Exchange(a, b), sched);
    HasFree(t, a);
    HasFree(t, b);
    var e := SR.Partners(t, a, b);
    ExchangeAsks(t, e, 0);
    var asked := Asked(Walk(t), e, 0);
    assert asked + [Missing(a, b)] + [] == asked + [Missing(a, b)];
  }

  lemma {:induction false} NoneIn(w: seq<Entry>, n: Name)
    requires Free(w, n)
    ensures CountIn(w, n) == 0
  {
    if w != [] {
      FreeTail(w, n);
      NoneIn(w[1..], n);
    }
  }

  // ---------- scripts ----------

  lemma {:induction false} OutcomeAppends(t: Tree, cmds: seq<Cmd>, log: seq<Event>)
    requires SR.AcceptableAll(t, cmds)
    ensures SR.Outcome(t, cmds, log).log == log + SR.Outcome(t, cmds, []).log
    ensures SR.Outcome(t, cmds, log).root == SR.Outcome(t, cmds, []).root
    decreases cmds
  {
    if cmds == [] {
      assert log + [] == log;
    } else if SR.Do(t, cmds[0]).Alive? {
      var u, said := SR.Do(t, cmds[0]).tree, SR.Says(t, cmds[0]);
      OutcomeAppends(u, cmds[1..], log + said);
      OutcomeAppends(u, cmds[1..], [] + said);
      Regroup(log, said, SR.Outcome(u, cmds[1..], []).log);
    } else {
      assert log + ([] + SR.Says(t, cmds[0])) == log + SR.Says(t, cmds[0]);
    }
  }

  lemma {:induction false} Regroup(a: seq<Event>, b: seq<Event>, c: seq<Event>)
    ensures a + b + c == a + ([] + b + c)
  {
  }

  /** A script prints what its commands print alone, one after the other, each on the tree that the one before has
      left. */
  lemma {:induction false} ScriptPrints(t: Tree, cmds: seq<Cmd>, sched: seq<SR.Path>, one: seq<SR.Path>, u: Tree,
      rest: seq<SR.Path>)
    requires SR.Fine(t) && cmds != [] && SR.AcceptableAll(t, cmds)
    requires SR.Legal(SR.Idle(t, cmds, []), sched) && SR.Stuck(SR.After(SR.Idle(t, cmds, []), sched))
    requires Complete(t, cmds[0], one) && End(t, cmds[0], one).root == Quiet(u)
    requires SR.Legal(SR.Idle(u, cmds[1..], []), rest) && SR.Stuck(SR.After(SR.Idle(u, cmds[1..], []), rest))
    ensures var w, x := SR.After(SR.Idle(t, cmds, []), sched), SR.After(SR.Idle(u, cmds[1..], []), rest);
            w.root == x.root && w.log == End(t, cmds[0], one).log + x.log
  {
    SR.Refinement(t, cmds, sched);
    OneCommand(t, cmds[0], one);
    var s := SR.Do(t, cmds[0]);
    SameTree(s.tree, u);
    SR.StaysFine(t, cmds[0]);
    SR.Refinement(u, cmds[1..], rest);
    assert [] + SR.Says(t, cmds[0]) == SR.Says(t, cmds[0]);
    OutcomeAppends(u, cmds[1..], SR.Says(t, cmds[0]));
  }

  /** A tree at rest can be read off its processes. */
  lemma {:induction false} SameTree(t: Tree, u: Tree)
    requires Rest(t) == Rest(u)
    ensures t == u
    decreases t
  {
    assert |Rest(t).kids| == |t.kids| && |Rest(u).kids| == |u.kids|;
    forall i | 0 <= i < |t.kids| ensures t.kids[i] == u.kids[i] {
      assert Rest(t).kids[i].proc == Rest(t.kids[i]) && Rest(u).kids[i].proc == Rest(u.kids[i]);
      SameTree(t.kids[i], u.kids[i]);
    }
  }
}
