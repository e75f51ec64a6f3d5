/** The descriptor tables of a whole tree of services, over any run of the processes. */
module ServiceTables {
  import opened ServiceTree
  import opened ServiceMachine
  import SR = ServiceRuns
  import opened ServiceFds

  const NO_FIFO := -1

  /** One service: whether it is the Manager, its two pipes to the parent, its descriptors, the one among them that
      is a fifo, its list of children, and the tables of those children. */
  datatype Tables = Tables(top: bool, read: nat, write: nat, fds: Table, fifo: int, childlist: seq<Kid>,
                           kids: seq<Tables>)

  // ---------- steps ----------

  /** `spawn_child`, in parent and child. */
  function Forked(n: Tables, p2c: nat, c2p: nat): Tables {
    var p := MakePipes(n.fds, p2c, c2p);
    Tables(n.top, n.read, n.write, ParentScript(p), n.fifo, n.childlist + [Kid(p.r2, p.w1)],
           n.kids + [Tables(false, p2c, c2p, ChildScript(p), NO_FIFO, [], [])])
  }

  /** The end of `let_child_suicide`. */
  function Forgotten(n: Tables, i: nat): Tables
    requires i < |n.kids| == |n.childlist|
  {
    Tables(n.top, n.read, n.write, Close(Close(n.fds, n.childlist[i].readfd), n.childlist[i].writefd), n.fifo,
           n.childlist[..i] + n.childlist[i + 1..], n.kids[..i] + n.kids[i + 1..])
  }

  /** An `open` of a fifo has returned. */
  function Opened(n: Tables, reading: bool): Tables {
    n.(fds := OpenFifo(n.fds, reading), fifo := Lowest(n.fds, 0))
  }

  function Shut(n: Tables): Tables {
    if n.fifo < 0 then n else n.(fds := Close(n.fds, n.fifo), fifo := NO_FIFO)
  }

  /** The operation of `exchange` that a process is at. */
  function Op(p: Proc): FifoOp
    requires p.pc.XFifo? && p.pc.k < SCRIPT_LEN
  {
    var first := p.name == p.pc.x.a;
    Script(p.name, if first then p.pc.x.b else p.pc.x.a, first)[p.pc.k]
  }

  function FifoTables(n: Tables, op: FifoOp): Tables {
    match op
    case SyncR(_) => Opened(n, true)
    case SyncW(_) => Opened(n, false)
    case CloseR(_) => Shut(n)
    case CloseW(_) => Shut(n)
    case _ => n
  }

  /** A process that has exited, after its termination or after an error. */
  predicate Exited(p: Proc) {
    p.pc.Dead? || p.pc.Failed?
  }

  /** What the step from p to q does to the tables of the process. Its new pipes are numbered from `pipe` on. */
  function NodeTables(n: Tables, p: Proc, q: Proc, pipe: nat): Tables {
    if Exited(q) then n.(fds := map[], fifo := NO_FIFO)
    else if p.pc.SpawnFork? then Forked(n, pipe, pipe + 1)
    else if p.pc.KillReap? then (if p.pc.i < |n.kids| == |n.childlist| then Forgotten(n, p.pc.i) else n)
    else if p.pc.TermReap? then (if 0 < |n.kids| == |n.childlist| then Forgotten(n, 0) else n)
    else if p.pc.XFifo? && p.pc.k < SCRIPT_LEN then FifoTables(n, Op(p))
    else n
  }

  /** What the step from l to m of the process that `path` leads to does to the tables. */
  function NextTables(n: Tables, p: Proc, q: Proc, path: SR.Path, pipe: nat): (r: Tables)
    ensures r.top == n.top && r.read == n.read && r.write == n.write
    decreases path
  {
    if path == [] then NodeTables(n, p, q, pipe)
    else if path[0] >= |n.kids| || path[0] >= |p.kids| || path[0] >= |q.kids| then n
    else
      var i := path[0];
      n.(kids := n.kids[i := NextTables(n.kids[i], p.kids[i].proc, q.kids[i].proc, path[1..], pipe)])
  }

  // ---------- when a fifo is open ----------

  /** The script's positions between the return of an `open` and the `close`. */
  predicate Held(k: nat, first: bool) {
    k == 4 || k == 5 || if first then k == 9 || k == 10 else k == 8 || k == 9
  }

  /** A process is in the middle of reading or writing a fifo. */
  predicate Holding(p: Proc) {
    p.pc.XFifo? && Held(p.pc.k, p.name == p.pc.x.a)
  }

  /** Service a reads first, service b writes first. */
  predicate Reading(p: Proc)
    requires p.pc.XFifo?
  {
    (p.name == p.pc.x.a) == (p.pc.k <= 5)
  }

  /** An operation at position k of the script opens, closes, or does neither. */
  ghost predicate Changes(op: FifoOp, held: bool, held': bool) {
    if op.SyncR? || op.SyncW? then !held && held'
    else if op.CloseR? || op.CloseW? then held && !held'
    else held == held'
  }

  lemma {:induction false} HeldBetween(p: Proc, k: nat)
    requires p.pc.XFifo? && p.pc.k == k < SCRIPT_LEN
    ensures var first := p.name == p.pc.x.a;
            && Changes(Op(p), Held(k, first), Held(k + 1, first))
            && (Op(p).SyncR? || Op(p).SyncW? ==> (Op(p).SyncR? <==> first == (k + 1 <= 5)))
            && (Held(k, first) && Held(k + 1, first) ==> (k <= 5 <==> k + 1 <= 5))
  {
  }

  // ---------- what every service holds ----------

  /** The descriptors apart from the fifo. */
  function Kept(n: Tables): Table {
    if n.fifo < 0 then n.fds else Close(n.fds, n.fifo)
  }

  /** The two descriptors kept for a child are the other ends of the child's own pipes. */
  ghost predicate Joined(t: Table, kid: Kid, k: Tables) {
    && kid.readfd in t && t[kid.readfd] == Slot(ReadEnd(k.write), true)
    && kid.writefd in t && t[kid.writefd] == Slot(WriteEnd(k.read), true)
  }

  ghost predicate Shaped(n: Tables, t: Table) {
    && |n.childlist| == |n.kids| && Shape(t, n.top, n.read, n.write, n.childlist)
    && forall i :: 0 <= i < |n.kids| ==> Joined(t, n.childlist[i], n.kids[i])
  }

  /** There is a fifo exactly in the middle of reading or writing one, at the lowest free descriptor. */
  ghost predicate FifoFits(n: Tables, p: Proc) {
    if Holding(p) then
      && n.fifo >= 0 && n.fifo == Lowest(Kept(n), 0)
      && n.fifo in n.fds && n.fds[n.fifo] == Slot(FifoEnd(Reading(p)), false)
    else n.fifo == NO_FIFO
  }

  ghost predicate Own(n: Tables, p: Proc) {
    if Exited(p) then n.fds == map[] else Shaped(n, Kept(n)) && FifoFits(n, p)
  }

  /** Every service of the tree has the table that it should have, and the tables belong to the processes. */
  ghost predicate Sound(n: Tables, p: Proc) {
    && Own(n, p) && |n.kids| == |p.kids|
    && forall i :: 0 <= i < |n.kids| ==> !n.kids[i].top && Sound(n.kids[i], p.kids[i].proc)
  }

  /** How many descriptors a process has: the standard streams, its own two pipes unless it is the Manager, two for
      each child, and one if it is in the middle of reading or writing a fifo; none when it has exited. */
  function Count(top: bool, p: Proc): nat {
    if Exited(p) then 0 else Low(top) + 2 * |p.kids| + if Holding(p) then 1 else 0
  }

  ghost predicate Counted(n: Tables, p: Proc) {
    && |n.fds| == Count(n.top, p) && |n.kids| == |p.kids|
    && forall i :: 0 <= i < |n.kids| ==> !n.kids[i].top && Counted(n.kids[i], p.kids[i].proc)
  }

  lemma {:induction false} FifoCounts(n: Tables, p: Proc)
    requires FifoFits(n, p) && Shape(Kept(n), n.top, n.read, n.write, n.childlist)
    ensures |n.fds| == |Kept(n)| + if Holding(p) then 1 else 0
  {
    if Holding(p) { assert n.fds.Keys == Kept(n).Keys + {n.fifo}; }
  }

  lemma {:induction false} SoundCounts(n: Tables, p: Proc)
    requires Sound(n, p)
    ensures Counted(n, p)
    decreases n
  {
    if !Exited(p) { FifoCounts(n, p); }
    forall i | 0 <= i < |n.kids| ensures Counted(n.kids[i], p.kids[i].proc) { SoundCounts(n.kids[i], p.kids[i].proc); }
  }

  // ---------- steps of a process ----------

  ghost predicate KidsSame(p: Proc, q: Proc) {
    |q.kids| == |p.kids| && forall i :: 0 <= i < |p.kids| ==> q.kids[i].proc == p.kids[i].proc
  }

  /** Neither the children nor a fifo change. */
  ghost predicate Plain(p: Proc, q: Proc) {
    KidsSame(p, q) && !Holding(q)
  }

  lemma {:induction false} SearchKidsStay(l: Link, g: Fifos)
    requires StepNode(l, g).Moved? && (l.proc.pc.SpawnSend? || l.proc.pc.SpawnAwait? || l.proc.pc.SpawnBooted?
        || l.proc.pc.SpawnReply?)
    ensures Plain(l.proc, StepNode(l, g).link.proc)
  {
  }

  lemma {:induction false} KillKidsStay(l: Link, g: Fifos)
    requires StepNode(l, g).Moved? && (l.proc.pc.KillSend? || l.proc.pc.KillAwait? || l.proc.pc.KillAgree?
        || l.proc.pc.KillReply?)
    ensures Plain(l.proc, StepNode(l, g).link.proc)
  {
  }

  lemma {:induction false} TermKidsStay(l: Link, g: Fifos)
    requires StepNode(l, g).Moved? && (l.proc.pc.TermSend? || l.proc.pc.TermAwait? || l.proc.pc.TermAgree?
        || l.proc.pc.TermReply? || l.proc.pc.TermWait?)
    ensures Plain(l.proc, StepNode(l, g).link.proc)
  {
  }

  lemma {:induction false} CountKidsStay(l: Link, g: Fifos)
    requires StepNode(l, g).Moved? && (l.proc.pc.XSend? || l.proc.pc.XAwait?)
    ensures Plain(l.proc, StepNode(l, g).link.proc)
  {
  }

  lemma {:induction false} JoinKidsStay(l: Link, g: Fifos)
    requires StepNode(l, g).Moved? && (l.proc.pc.XJoin? || l.proc.pc.XReply?)
    ensures Plain(l.proc, StepNode(l, g).link.proc)
  {
  }

  lemma {:induction false} OwnKidsStay(l: Link, g: Fifos)
    requires StepNode(l, g).Moved? && (l.proc.pc.Boot? || l.proc.pc.Ready? || l.proc.pc.XReport?)
    ensures Plain(l.proc, StepNode(l, g).link.proc)
  {
  }

  /** A process that neither forks nor reaps nor uses a fifo. */
  lemma {:induction false} KidsStay(l: Link, g: Fifos)
    requires StepNode(l, g).Moved?
    requires var pc := l.proc.pc; !pc.SpawnFork? && !pc.KillReap? && !pc.TermReap? && !pc.XFifo?
    ensures Plain(l.proc, StepNode(l, g).link.proc)
  {
    var pc := l.proc.pc;
    if pc.SpawnSend? || pc.SpawnAwait? || pc.SpawnBooted? || pc.SpawnReply? { SearchKidsStay(l, g); }
    else if pc.KillSend? || pc.KillAwait? || pc.KillAgree? || pc.KillReply? { KillKidsStay(l, g); }
    else if pc.TermSend? || pc.TermAwait? || pc.TermAgree? || pc.TermReply? || pc.TermWait? { TermKidsStay(l, g); }
    else if pc.XSend? || pc.XAwait? { CountKidsStay(l, g); }
    else if pc.XJoin? || pc.XReply? { JoinKidsStay(l, g); }
    else if pc.Boot? || pc.Ready? || pc.XReport? { OwnKidsStay(l, g); }
  }

  /** The process goes on to the next operation of the script, or behind its end. */
  ghost predicate ScriptNext(p: Proc, q: Proc) {
    && p.pc.XFifo? && p.pc.k < SCRIPT_LEN && KidsSame(p, q) && !Exited(q)
    && var first := p.name == p.pc.x.a;
    && Holding(q) == Held(p.pc.k + 1, first)
    && (Holding(q) ==> q.pc.XFifo? && Reading(q) == (first == (p.pc.k + 1 <= 5)))
  }

  lemma {:induction false} FifoKidsStay(l: Link, g: Fifos)
    requires l.proc.pc.XFifo? && StepNode(l, g).Moved?
    ensures var q := StepNode(l, g).link.proc; KidsSame(l.proc, q) && (Exited(q) || ScriptNext(l.proc, q))
  {
  }

  // ---------- every step keeps the tables sound ----------

  lemma {:induction false} SameKids(n: Tables, p: Proc, m: Tables, q: Proc)
    requires Sound(n, p) && m.kids == n.kids && KidsSame(p, q) && Own(m, q)
    ensures Sound(m, q)
  {
  }

  lemma {:induction false} PlainOwn(n: Tables, p: Proc, q: Proc)
    requires Own(n, p) && !Exited(p) && !Exited(q) && !Holding(p) && !Holding(q)
    ensures Own(n, q)
  {
  }

  ghost predicate Forks(p: Proc, q: Proc) {
    && p.pc.SpawnFork? && !Exited(q) && !Holding(q)
    && |q.kids| == |p.kids| + 1 && q.kids[|p.kids|].proc.pc.Boot? && q.kids[|p.kids|].proc.kids == []
    && forall i :: 0 <= i < |p.kids| ==> q.kids[i].proc == p.kids[i].proc
  }

  lemma {:induction false} ForkSound(n: Tables, p: Proc, q: Proc, pipe: nat)
    requires Sound(n, p) && Forks(p, q)
    ensures Sound(NodeTables(n, p, q, pipe), q)
  {
    ForkShaped(n, pipe, pipe + 1);
    NewChild(Forked(n, pipe, pipe + 1).kids[|n.kids|], q.kids[|p.kids|].proc, pipe, pipe + 1);
    KidAdded(n, p, Forked(n, pipe, pipe + 1), q);
  }

  lemma {:induction false} KidAdded(n: Tables, p: Proc, m: Tables, q: Proc)
    requires Sound(n, p) && !Exited(q) && !Holding(q) && m.fifo == NO_FIFO && Shaped(m, m.fds)
    requires |m.kids| == |q.kids| == |n.kids| + 1 && m.kids[..|n.kids|] == n.kids
    requires forall i :: 0 <= i < |p.kids| ==> q.kids[i].proc == p.kids[i].proc
    requires !m.kids[|n.kids|].top && Sound(m.kids[|n.kids|], q.kids[|n.kids|].proc)
    ensures Sound(m, q)
  {
    forall i | 0 <= i < |m.kids| ensures !m.kids[i].top && Sound(m.kids[i], q.kids[i].proc) {
      if i < |n.kids| { assert m.kids[i] == m.kids[..|n.kids|][i]; }
    }
  }

  lemma {:induction false} NewChild(k: Tables, p: Proc, p2c: nat, c2p: nat)
    requires k == Tables(false, p2c, c2p, Initial(false, p2c, c2p), NO_FIFO, [], []) && p.pc.Boot? && p.kids == []
    ensures Sound(k, p)
  {
    InitialShape(false, p2c, c2p);
  }

  lemma {:induction false} ForkShaped(n: Tables, p2c: nat, c2p: nat)
    requires Shaped(n, n.fds)
    ensures var r := Forked(n, p2c, c2p);
            && Shaped(r, r.fds) && |r.kids| == |n.kids| + 1 && r.kids[..|n.kids|] == n.kids
            && r.kids[|n.kids|] == Tables(false, p2c, c2p, Initial(false, p2c, c2p), NO_FIFO, [], [])
  {
    var r, s := Forked(n, p2c, c2p), MakePipes(n.fds, p2c, c2p);
    ChildTable(n.fds, n.top, n.read, n.write, n.childlist, p2c, c2p);
    ParentTable(n.fds, n.top, n.read, n.write, n.childlist, p2c, c2p);
    PipesApart(n.fds, n.top, n.read, n.write, p2c, c2p);
    NewTables(n, r, s.r2, s.w1, p2c, c2p);
  }

  lemma {:induction false} NewTables(n: Tables, r: Tables, rfd: nat, wfd: nat, p2c: nat, c2p: nat)
    requires Shaped(n, n.fds) && rfd !in n.fds && wfd !in n.fds && rfd != wfd
    requires r.fds == n.fds[rfd := Slot(ReadEnd(c2p), true)][wfd := Slot(WriteEnd(p2c), true)]
    requires r.childlist == n.childlist + [Kid(rfd, wfd)] && Shape(r.fds, r.top, r.read, r.write, r.childlist)
    requires |r.kids| == |n.kids| + 1 && r.kids[..|n.kids|] == n.kids
    requires r.kids[|n.kids|].read == p2c && r.kids[|n.kids|].write == c2p
    ensures Shaped(r, r.fds)
  {
    forall i | 0 <= i < |r.kids| ensures Joined(r.fds, r.childlist[i], r.kids[i]) {
      if i < |n.kids| {
        assert r.kids[i] == r.kids[..|n.kids|][i] && r.childlist[i] == n.childlist[i];
        assert Joined(n.fds, n.childlist[i], n.kids[i]);
      }
    }
  }

  lemma {:induction false} ForgetSound(n: Tables, p: Proc, q: Proc, i: nat)
    requires Sound(n, p) && !Exited(p) && !Holding(p) && !Exited(q) && !Holding(q)
    requires i < |p.kids| && q.kids == p.kids[..i] + p.kids[i + 1..]
    ensures Sound(Forgotten(n, i), q)
  {
    ForgetShaped(n, i);
    KidGone(n, p, Forgotten(n, i), q, i);
  }

  lemma {:induction false} KidGone(n: Tables, p: Proc, m: Tables, q: Proc, i: nat)
    requires Sound(n, p) && !Exited(q) && !Holding(q) && m.fifo == NO_FIFO && Shaped(m, m.fds)
    requires i < |p.kids| && q.kids == p.kids[..i] + p.kids[i + 1..] && m.kids == n.kids[..i] + n.kids[i + 1..]
    ensures Sound(m, q)
  {
    forall j | 0 <= j < |m.kids| ensures !m.kids[j].top && Sound(m.kids[j], q.kids[j].proc) {
      var was := if j < i then j else j + 1;
      assert m.kids[j] == n.kids[was] && q.kids[j] == p.kids[was];
    }
  }

  lemma {:induction false} ForgetShaped(n: Tables, i: nat)
    requires Shaped(n, n.fds) && i < |n.kids|
    ensures var r := Forgotten(n, i); Shaped(r, r.fds)
  {
    var r := Forgotten(n, i);
    ShapeShrinks(n.fds, n.top, n.read, n.write, n.childlist, i);
    forall j | 0 <= j < |r.kids| ensures Joined(r.fds, r.childlist[j], r.kids[j]) {
      var was := if j < i then j else j + 1;
      assert r.childlist[j] == n.childlist[was] && r.kids[j] == n.kids[was];
      assert Joined(n.fds, n.childlist[was], n.kids[was]);
      FdsWithout(n.childlist, i);
      FdsWithout(r.childlist, j);
    }
  }

  lemma {:induction false} FifoOwn(n: Tables, p: Proc, q: Proc, op: FifoOp)
    requires Own(n, p) && !Exited(p) && !Exited(q) && Changes(op, Holding(p), Holding(q))
    requires Holding(q) ==> Reading(q) == if op.SyncR? || op.SyncW? then op.SyncR? else Reading(p)
    ensures Own(FifoTables(n, op), q) && FifoTables(n, op).kids == n.kids
  {
    if op.SyncR? || op.SyncW? { OpenedOwn(n, p, q, op.SyncR?); }
    else if op.CloseR? || op.CloseW? { ShutOwn(n, p, q); }
    else if Holding(p) { HoldingOwn(n, p, q); }
    else { PlainOwn(n, p, q); }
  }

  lemma {:induction false} OpenedOwn(n: Tables, p: Proc, q: Proc, reading: bool)
    requires Own(n, p) && !Exited(p) && !Holding(p) && !Exited(q) && Holding(q) && Reading(q) == reading
    ensures Own(Opened(n, reading), q)
  {
    OpenClose(n.fds, n.top, n.read, n.write, n.childlist, reading);
    assert Kept(Opened(n, reading)) == n.fds;
  }

  lemma {:induction false} ShutOwn(n: Tables, p: Proc, q: Proc)
    requires Own(n, p) && !Exited(p) && Holding(p) && !Exited(q) && !Holding(q)
    ensures Own(Shut(n), q)
  {
    assert Kept(Shut(n)) == Kept(n);
  }

  lemma {:induction false} HoldingOwn(n: Tables, p: Proc, q: Proc)
    requires Own(n, p) && !Exited(p) && Holding(p) && !Exited(q) && Holding(q) && Reading(p) == Reading(q)
    ensures Own(n, q)
  {
  }

  /** Process p reaps child i. */
  ghost predicate Reaps(p: Proc, q: Proc, i: nat) {
    && i < |p.kids| && q.kids == p.kids[..i] + p.kids[i + 1..] && !Exited(p) && !Holding(p) && !Exited(q) && !Holding(q)
    && (p.pc.KillReap? || p.pc.TermReap?) && i == if p.pc.KillReap? then p.pc.i else 0
  }

  lemma {:induction false} KillReaps(l: Link, g: Fifos)
    requires StepNode(l, g).Moved? && l.proc.pc.KillReap?
    ensures Reaps(l.proc, StepNode(l, g).link.proc, l.proc.pc.i)
  {
  }

  lemma {:induction false} TermReaps(l: Link, g: Fifos)
    requires StepNode(l, g).Moved? && l.proc.pc.TermReap?
    ensures Reaps(l.proc, StepNode(l, g).link.proc, 0)
  {
  }

  lemma {:induction false} ReapNode(n: Tables, p: Proc, q: Proc, i: nat, pipe: nat)
    requires Sound(n, p) && Reaps(p, q, i)
    ensures Sound(NodeTables(n, p, q, pipe), q)
  {
    ForgetSound(n, p, q, i);
  }

  lemma {:induction false} SpawnForks(l: Link, g: Fifos)
    requires StepNode(l, g).Moved? && l.proc.pc.SpawnFork?
    ensures Forks(l.proc, StepNode(l, g).link.proc)
  {
  }

  lemma {:induction false} AliveUntil(l: Link, g: Fifos)
    requires StepNode(l, g).Moved?
    ensures !Exited(l.proc)
  {
  }

  lemma {:induction false} KidsStaySound(n: Tables, l: Link, g: Fifos, pipe: nat)
    requires Sound(n, l.proc) && StepNode(l, g).Moved?
    requires var pc := l.proc.pc; !pc.SpawnFork? && !pc.KillReap? && !pc.TermReap?
    ensures Sound(NodeTables(n, l.proc, StepNode(l, g).link.proc, pipe), StepNode(l, g).link.proc)
  {
    var p, q := l.proc, StepNode(l, g).link.proc;
    if p.pc.XFifo? { FifoKidsStay(l, g); } else { KidsStay(l, g); }
    AliveUntil(l, g);
    if Exited(q) { assert Own(n.(fds := map[], fifo := NO_FIFO), q); }
    else if p.pc.XFifo? {
      HeldBetween(p, p.pc.k);
      FifoOwn(n, p, q, Op(p));
    }
    else { PlainOwn(n, p, q); }
    SameKids(n, p, NodeTables(n, p, q, pipe), q);
  }

  lemma {:induction false} NodeSound(n: Tables, l: Link, g: Fifos, pipe: nat)
    requires Sound(n, l.proc) && StepNode(l, g).Moved?
    ensures Sound(NodeTables(n, l.proc, StepNode(l, g).link.proc, pipe), StepNode(l, g).link.proc)
  {
    var p, q := l.proc, StepNode(l, g).link.proc;
    if p.pc.SpawnFork? {
      SpawnForks(l, g);
      ForkSound(n, p, q, pipe);
    } else if p.pc.KillReap? {
      KillReaps(l, g);
      ReapNode(n, p, q, p.pc.i, pipe);
    } else if p.pc.TermReap? {
      TermReaps(l, g);
      ReapNode(n, p, q, 0, pipe);
    } else {
      KidsStaySound(n, l, g, pipe);
    }
  }

  lemma {:induction false} NextSound(n: Tables, l: Link, g: Fifos, path: SR.Path, pipe: nat)
    requires Sound(n, l.proc) && StepAt(l, g, path).Moved?
    ensures var q := StepAt(l, g, path).link.proc; Sound(NextTables(n, l.proc, q, path, pipe), q)
    decreases path
  {
    if path == [] {
      NodeSound(n, l, g, pipe);
    } else {
      var i := path[0];
      var k := StepAt(l.proc.kids[i], g, path[1..]).link;
      NextSound(n.kids[i], l.proc.kids[i], g, path[1..], pipe);
      KidReplaced(n, l.proc, i, NextTables(n.kids[i], l.proc.kids[i].proc, k.proc, path[1..], pipe), k);
    }
  }

  lemma {:induction false} KidReplaced(n: Tables, p: Proc, i: nat, k: Tables, link: Link)
    requires Sound(n, p) && i < |n.kids| && Sound(k, link.proc)
    requires k.top == n.kids[i].top && k.read == n.kids[i].read && k.write == n.kids[i].write
    ensures Sound(n.(kids := n.kids[i := k]), p.(kids := p.kids[i := link]))
  {
  }

  // ---------- no two services share a pipe ----------

  /** q is one of the two pipes of a service of the tree. */
  ghost predicate Uses(n: Tables, q: nat) {
    (!n.top && (q == n.read || q == n.write)) || exists i :: 0 <= i < |n.kids| && Uses(n.kids[i], q)
  }

  ghost predicate Below(n: Tables, limit: nat) {
    forall q: nat :: Uses(n, q) ==> q < limit
  }

  /** No two pipes of the tree have the same number. */
  ghost predicate Apart(n: Tables) {
    && (n.top || n.read != n.write)
    && (forall i, q: nat :: 0 <= i < |n.kids| && Uses(n.kids[i], q) ==> n.top || (q != n.read && q != n.write))
    && (forall i, j, q: nat :: 0 <= i < j < |n.kids| && Uses(n.kids[i], q) ==> !Uses(n.kids[j], q))
    && forall i :: 0 <= i < |n.kids| ==> Apart(n.kids[i])
  }

  /** The tables of m have at most two new pipes. */
  ghost predicate Extends(n: Tables, m: Tables, pipe: nat) {
    Apart(m) && forall q: nat :: Uses(m, q) ==> Uses(n, q) || q == pipe || q == pipe + 1
  }

  ghost predicate SameNode(n: Tables, m: Tables) {
    m.top == n.top && m.read == n.read && m.write == n.write
  }

  lemma {:induction false} SameExtends(n: Tables, m: Tables, pipe: nat)
    requires Apart(n) && SameNode(n, m) && m.kids == n.kids
    ensures Extends(n, m, pipe)
  {
  }

  lemma {:induction false} AddedExtends(n: Tables, m: Tables, k: Tables, pipe: nat)
    requires Apart(n) && Below(n, pipe) && SameNode(n, m) && m.kids == n.kids + [k]
    requires !k.top && k.read == pipe && k.write == pipe + 1 && k.kids == []
    ensures Extends(n, m, pipe)
  {
    UsesOwn(n);
    BelowKids(n, pipe);
    forall i | 0 <= i < |n.kids| ensures m.kids[i] == n.kids[i] {}
    forall q: nat | Uses(m, q) ensures Uses(n, q) || q == pipe || q == pipe + 1 {
      if !(!m.top && (q == m.read || q == m.write)) {
        var i :| 0 <= i < |m.kids| && Uses(m.kids[i], q);
      }
    }
    forall i, j, q: nat | 0 <= i < j < |m.kids| && Uses(m.kids[i], q) ensures !Uses(m.kids[j], q) {
      assert Below(n.kids[i], pipe);
    }
    assert Apart(k);
  }

  lemma {:induction false} UsesOwn(n: Tables)
    ensures n.top || (Uses(n, n.read) && Uses(n, n.write))
  {
  }

  lemma {:induction false} BelowKids(n: Tables, limit: nat)
    requires Below(n, limit)
    ensures forall i :: 0 <= i < |n.kids| ==> Below(n.kids[i], limit)
  {
    forall i, q: nat | 0 <= i < |n.kids| && Uses(n.kids[i], q) ensures q < limit { assert Uses(n, q); }
  }

  lemma {:induction false} RemovedExtends(n: Tables, m: Tables, i: nat, pipe: nat)
    requires Apart(n) && SameNode(n, m) && i < |n.kids| && m.kids == n.kids[..i] + n.kids[i + 1..]
    ensures Extends(n, m, pipe)
  {
    forall j | 0 <= j < |m.kids| ensures m.kids[j] == n.kids[if j < i then j else j + 1] {}
    forall j, k, q: nat | 0 <= j < k < |m.kids| && Uses(m.kids[j], q) ensures !Uses(m.kids[k], q) {
      var j', k' := if j < i then j else j + 1, if k < i then k else k + 1;
      assert m.kids[j] == n.kids[j'] && m.kids[k] == n.kids[k'];
    }
    forall q: nat | Uses(m, q) ensures Uses(n, q) {
      if !(!m.top && (q == m.read || q == m.write)) {
        var j :| 0 <= j < |m.kids| && Uses(m.kids[j], q);
        assert m.kids[j] == n.kids[if j < i then j else j + 1];
      }
    }
  }

  lemma {:induction false} ReplacedExtends(n: Tables, m: Tables, i: nat, k: Tables, pipe: nat)
    requires Apart(n) && Below(n, pipe) && SameNode(n, m) && i < |n.kids| && m.kids == n.kids[i := k]
    requires Extends(n.kids[i], k, pipe)
    ensures Extends(n, m, pipe)
  {
    UsesOwn(n);
    BelowKids(n, pipe);
    forall j | 0 <= j < |n.kids| && j != i ensures m.kids[j] == n.kids[j] {}
    forall q: nat | Uses(m, q) ensures Uses(n, q) || q == pipe || q == pipe + 1 {
      if !(!m.top && (q == m.read || q == m.write)) {
        var j :| 0 <= j < |m.kids| && Uses(m.kids[j], q);
      }
    }
    forall j, j', q: nat | 0 <= j < j' < |m.kids| && Uses(m.kids[j], q) ensures !Uses(m.kids[j'], q) {
      assert Below(n.kids[j], pipe) && Below(n.kids[j'], pipe);
    }
  }

  lemma {:induction false} NodeExtends(n: Tables, p: Proc, q: Proc, pipe: nat)
    requires Apart(n) && Below(n, pipe)
    ensures Extends(n, NodeTables(n, p, q, pipe), pipe)
  {
    var m := NodeTables(n, p, q, pipe);
    if Exited(q) { SameExtends(n, m, pipe); }
    else if p.pc.SpawnFork? { AddedExtends(n, m, m.kids[|n.kids|], pipe); }
    else if p.pc.KillReap? && p.pc.i < |n.kids| == |n.childlist| { RemovedExtends(n, m, p.pc.i, pipe); }
    else if p.pc.TermReap? && 0 < |n.kids| == |n.childlist| { RemovedExtends(n, m, 0, pipe); }
    else { SameExtends(n, m, pipe); }
  }

  lemma {:induction false} NextExtends(n: Tables, p: Proc, q: Proc, path: SR.Path, pipe: nat)
    requires Apart(n) && Below(n, pipe)
    ensures Extends(n, NextTables(n, p, q, path, pipe), pipe)
    decreases path
  {
    if path == [] {
      NodeExtends(n, p, q, pipe);
    } else if path[0] >= |n.kids| || path[0] >= |p.kids| || path[0] >= |q.kids| {
      SameExtends(n, n, pipe);
    } else {
      var i := path[0];
      var k := NextTables(n.kids[i], p.kids[i].proc, q.kids[i].proc, path[1..], pipe);
      BelowKids(n, pipe);
      NextExtends(n.kids[i], p.kids[i].proc, q.kids[i].proc, path[1..], pipe);
      ReplacedExtends(n, n.(kids := n.kids[i := k]), i, k, pipe);
    }
  }

  // ---------- runs ----------

  ghost function TablesAfter(n: Tables, w: SR.World, sched: seq<SR.Path>, pipe: nat): (r: Tables)
    requires SR.Legal(w, sched)
    ensures r.top == n.top
    decreases sched
  {
    if sched == [] then n
    else
      var w' := SR.Step(w, sched[0]);
      TablesAfter(NextTables(n, w.root.proc, w'.root.proc, sched[0], pipe), w', sched[1..], pipe + 2)
  }

  /** At every point of every run, whatever commands are given and however the processes are scheduled: each
      service has the standard streams and its own two pipes, two ends for each of its children, which are the
      other ends of that child's pipes, and in the middle of reading or writing a fifo one descriptor for it; so
      the Manager has 3, any other service 5, two more for each child, and one more in the middle of an exchange.
      No two services share a pipe, so that the pipes tell the children apart. */
  lemma {:induction false} DescriptorsOverRuns(n: Tables, w: SR.World, sched: seq<SR.Path>, pipe: nat)
    requires Sound(n, w.root.proc) && Apart(n) && Below(n, pipe) && SR.Legal(w, sched)
    ensures var m, p := TablesAfter(n, w, sched, pipe), SR.After(w, sched).root.proc;
            Sound(m, p) && Counted(m, p) && Apart(m) && Below(m, pipe + 2 * |sched|)
    decreases sched
  {
    if sched == [] {
      SoundCounts(n, w.root.proc);
    } else {
      var w' := SR.Step(w, sched[0]);
      NextSound(n, w.root, w.fifos, sched[0], pipe);
      NextExtends(n, w.root.proc, w'.root.proc, sched[0], pipe);
      DescriptorsOverRuns(NextTables(n, w.root.proc, w'.root.proc, sched[0], pipe), w', sched[1..], pipe + 2);
    }
  }

  /** A terminating service without children closes its two pipes, which leaves the standard streams, and exits. */
  lemma {:induction false} LeavesStreams(n: Tables, p: Proc)
    requires Sound(n, p) && !n.top && p.pc.TermWait? && p.kids == []
    ensures Close(Close(n.fds, PARENT_READ_FD), PARENT_WRITE_FD) == Initial(true, n.read, n.write)
  {
    LastCloses(n.fds, n.read, n.write);
  }

  /** A Manager that has just been started. */
  lemma {:induction false} LoneManager(t: Tree, cmds: seq<Cmd>)
    requires t.kids == []
    ensures var n := Tables(true, 0, 0, Initial(true, 0, 0), NO_FIFO, [], []);
            Sound(n, SR.Idle(t, cmds, []).root.proc) && Apart(n) && Below(n, 0)
  {
    InitialShape(true, 0, 0);
  }

  // ---------- between commands ----------

  /** Every process waits for a command. */
  ghost predicate Waiting(p: Proc) {
    p.pc == Ready && forall i :: 0 <= i < |p.kids| ==> Waiting(p.kids[i].proc)
  }

  lemma {:induction false} RestWaits(t: Tree)
    ensures Waiting(Rest(t))
  {
    forall i | 0 <= i < |t.kids| ensures Waiting(Rest(t).kids[i].proc) { RestWaits(t.kids[i]); }
  }

  lemma {:induction false} AtRestWaits(w: SR.World, t: Tree, cmds: seq<Cmd>, log: seq<Event>)
    requires SR.AcceptableAll(t, cmds) && SR.AtRest(w, t, cmds, log)
    ensures Waiting(w.root.proc)
    decreases cmds
  {
    if w == SR.Idle(t, cmds, log) { RestWaits(t); }
    else { AtRestWaits(w, SR.Do(t, cmds[0]).tree, cmds[1..], log + SR.Says(t, cmds[0])); }
  }

  /** No fifo is open anywhere, and no process has gone. */
  ghost predicate Settled(n: Tables, p: Proc) {
    && Shape(n.fds, n.top, n.read, n.write, n.childlist) && |n.fds| == Low(n.top) + 2 * |p.kids| && |n.kids| == |p.kids|
    && forall i :: 0 <= i < |n.kids| ==> !n.kids[i].top && Settled(n.kids[i], p.kids[i].proc)
  }

  lemma {:induction false} WaitingSettles(n: Tables, p: Proc)
    requires Sound(n, p) && Waiting(p)
    ensures Settled(n, p)
    decreases n
  {
    forall i | 0 <= i < |n.kids| ensures Settled(n.kids[i], p.kids[i].proc) {
      WaitingSettles(n.kids[i], p.kids[i].proc);
    }
  }

  /** Whenever the Manager is ready for the next command of a script, and so after every exchange that completes,
      every service of the tree has exactly the table it should have between commands. */
  lemma {:induction false} SettledBetweenCommands(n: Tables, t: Tree, cmds: seq<Cmd>, sched: seq<SR.Path>, pipe: nat)
    requires SR.Fine(t) && SR.AcceptableAll(t, cmds) && SR.Legal(SR.Idle(t, cmds, []), sched)
    requires Sound(n, Rest(t)) && Apart(n) && Below(n, pipe)
    ensures var w := SR.After(SR.Idle(t, cmds, []), sched);
            w.root.proc.pc == Ready ==> Settled(TablesAfter(n, SR.Idle(t, cmds, []), sched, pipe), w.root.proc)
  {
    var w := SR.After(SR.Idle(t, cmds, []), sched);
    DescriptorsOverRuns(n, SR.Idle(t, cmds, []), sched, pipe);
    SR.Refinement(t, cmds, sched);
    if w.root.proc.pc == Ready {
      AtRestWaits(w, t, cmds, []);
      WaitingSettles(TablesAfter(n, SR.Idle(t, cmds, []), sched, pipe), w.root.proc);
    }
  }
}
