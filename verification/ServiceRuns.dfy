/** Whole runs of the service tree: every schedule of every script of console commands. */
module ServiceRuns {
  import opened ServiceTree
  import opened ServiceMachine
  import opened ServiceMeasure
  import FS = FifoSwap
  import ES = ExchangeState
  import EA = ExchangeActs
  import S = SpawnRefines
  import K = KillRefines
  import X = ExchangeRefines

  // ---------- the machine ----------

  /** All the processes below the Manager, the fifos, and what the terminal shows. */
  datatype World = World(root: Link, fifos: Fifos, log: seq<Event>)

  type Path = seq<nat>

  predicate Enabled(w: World, path: Path) {
    StepAt(w.root, w.fifos, path).Moved?
  }

  function Step(w: World, path: Path): World
    requires Enabled(w, path)
  {
    var m := StepAt(w.root, w.fifos, path);
    World(m.link, m.fifos, w.log + m.ev)
  }

  /** A schedule names, step by step, the process that moves. */
  predicate Legal(w: World, sched: seq<Path>)
    decreases sched
  {
    sched == [] || (Enabled(w, sched[0]) && Legal(Step(w, sched[0]), sched[1..]))
  }

  function After(w: World, sched: seq<Path>): World
    requires Legal(w, sched)
    decreases sched
  {
    if sched == [] then w else After(Step(w, sched[0]), sched[1..])
  }

  /** No process can move any more. */
  ghost predicate Stuck(w: World) {
    forall path :: !Enabled(w, path)
  }

  function Lines(cmds: seq<Cmd>): seq<Down> {
    seq(|cmds|, i requires 0 <= i < |cmds| => Line(cmds[i]))
  }

  /** Tree t at rest, with the commands on the Manager's standard input. */
  ghost function Idle(t: Tree, cmds: seq<Cmd>, log: seq<Event>): World {
    World(Link(Lines(cmds), [], Rest(t)), map[], log)
  }

  // ---------- what the commands mean ----------

  datatype System = Alive(tree: Tree) | Gone(name: Name, secret: nat)

  ghost function Partners(t: Tree, a: Name, b: Name): Pair {
    Pair(a, b, if Has(t, a) then Victim(t, a).secret else 0, if Has(t, b) then Victim(t, b).secret else 0)
  }

  /** The commands the console may give: nobody is called like the Manager, and an exchange names
      two different services, each known at most once and both known or both unknown. */
  ghost predicate Acceptable(t: Tree, c: Cmd) {
    match c
    case Spawn(parent, child, seed) => child != MANAGER
    case Kill(n) => true
    case Exchange(a, b) => a != b && Named(t, a) <= 1 && Named(t, b) <= 1 && Named(t, a) == Named(t, b)
    case _ => false
  }

  ghost function Do(t: Tree, c: Cmd): System
    requires Acceptable(t, c)
  {
    match c
    case Spawn(_, _, _) => Alive(Insert(t, c))
    case Kill(n) => if t.name == n then Gone(t.name, t.secret) else Alive(Remove(t, n))
    case Exchange(a, b) => Alive(if Named(t, a) == 0 then t else Swap(t, Partners(t, a, b)))
  }

  ghost function Says(t: Tree, c: Cmd): seq<Event>
    requires Acceptable(t, c)
  {
    match c
    case Spawn(_, _, _) => SpawnLog(t, c)
    case Kill(n) => KillLog(t, n)
    case Exchange(a, b) => X.ExchangeLog(t, Partners(t, a, b))
  }

  ghost predicate AcceptableAll(t: Tree, cmds: seq<Cmd>)
    decreases cmds
  {
    cmds != [] ==>
      && Acceptable(t, cmds[0])
      && var s := Do(t, cmds[0]);
      (s.Alive? ==> AcceptableAll(s.tree, cmds[1..]))
  }

  /** The world in which a script of commands ends. */
  ghost function Outcome(t: Tree, cmds: seq<Cmd>, log: seq<Event>): World
    requires AcceptableAll(t, cmds)
    decreases cmds
  {
    if cmds == [] then Idle(t, [], log)
    else
      var said := log + Says(t, cmds[0]);
      match Do(t, cmds[0])
      case Alive(t') => Outcome(t', cmds[1..], said)
      case Gone(_, _) => World(Link(Lines(cmds[1..]), [], K.Alone(t, Dead)), map[], said)
  }

  /** A bound on the number of steps of any schedule. */
  ghost function Bound(t: Tree, cmds: seq<Cmd>): nat
    requires AcceptableAll(t, cmds)
    decreases cmds
  {
    if cmds == [] then 0
    else
      PER_SERVICE * Size(t)
      + match Do(t, cmds[0])
        case Alive(t') => Bound(t', cmds[1..])
        case Gone(_, _) => 0
  }

  // ---------- the states of a run ----------

  /** Command c is being carried out on tree t; `base` was printed before it. */
  ghost predicate Busy(w: World, t: Tree, c: Cmd, rest: seq<Down>, base: seq<Event>)
    requires Acceptable(t, c)
  {
    match c
    case Spawn(_, _, _) => w.fifos == map[] && base <= w.log && S.Running(w.root, t, c, rest, w.log[|base|..])
    case Kill(n) => w.fifos == map[] && base <= w.log && K.Running(w.root, t, n, rest, w.log[|base|..])
    case Exchange(a, b) => exists p, vis :: Exchanging(w, t, Partners(t, a, b), p, rest, base, vis)
  }

  ghost predicate Exchanging(w: World, t: Tree, e: Pair, p: FS.Pos, rest: seq<Down>, base: seq<Event>,
      vis: seq<Event>) {
    X.Running(w.root, w.fifos, t, e, p, rest, vis) && w.log == base + (vis + EA.Acquisitions(e, p))
  }

  ghost predicate Done(w: World, s: System, rest: seq<Down>, log: seq<Event>) {
    && w.fifos == map[] && w.log == log
    && w.root == Link(rest, [], match s case Alive(t) => Rest(t) case Gone(n, x) => Proc(n, x, Dead, []))
  }

  ghost predicate Fine(t: Tree) {
    t.name == MANAGER && Plain(t.kids)
  }

  // ---------- one command ----------

  lemma {:induction false} Printing(log: seq<Event>, base: seq<Event>, ev: seq<Event>)
    requires base <= log
    ensures (log + ev)[|base|..] == log[|base|..] + ev && log + ev == base + (log[|base|..] + ev)
  {
  }

  lemma {:induction false} SpawnStep(w: World, t: Tree, c: Cmd, rest: seq<Down>, base: seq<Event>, path: Path)
    requires Fine(t) && c.Spawn? && Acceptable(t, c) && Busy(w, t, c, rest, base) && Enabled(w, path)
    ensures || (Busy(Step(w, path), t, c, rest, base) && Pot(Step(w, path).root) < Pot(w.root))
            || (Done(Step(w, path), Do(t, c), rest, base + Says(t, c)) && Pot(w.root) > 0)
  {
    var seen := w.log[|base|..];
    S.AnyStep(w.root, t, c, rest, seen, w.fifos, path);
    Printing(w.log, base, StepAt(w.root, w.fifos, path).ev);
  }

  lemma {:induction false} KillStep(w: World, t: Tree, c: Cmd, rest: seq<Down>, base: seq<Event>, path: Path)
    requires Fine(t) && c.Kill? && Acceptable(t, c) && Busy(w, t, c, rest, base) && Enabled(w, path)
    ensures || (Busy(Step(w, path), t, c, rest, base) && Pot(Step(w, path).root) < Pot(w.root))
            || (Done(Step(w, path), Do(t, c), rest, base + Says(t, c)) && Pot(w.root) > 0)
  {
    var seen := w.log[|base|..];
    K.AnyStep(w.root, t, c.target, rest, seen, w.fifos, path);
    Printing(w.log, base, StepAt(w.root, w.fifos, path).ev);
  }

  // ---------- exchange: the secrets of the two partners ----------

  lemma {:induction false} HasNamed(t: Tree, n: Name)
    ensures Has(t, n) <==> Named(t, n) > 0
  {
    forall i | 0 <= i < |t.kids| ensures Has(t.kids[i], n) <==> Named(t.kids[i], n) > 0 { HasNamed(t.kids[i], n); }
    EA.ThroughName(t, n, |t.kids|);
    forall i | 0 <= i < |t.kids| ensures Named(t, n) >= Named(t.kids[i], n) { ES.ApartName(t, n, i); }
  }

  /** Where a name occurs once, the first service of that name is the only one. */
  lemma {:induction false} OnlyVictim(t: Tree, n: Name, i: nat)
    requires Named(t, n) <= 1 && i < |t.kids| && Has(t.kids[i], n)
    ensures Has(t, n) && t.name != n && Victim(t, n) == Victim(t.kids[i], n)
  {
    ES.ApartName(t, n, i);
    HasNamed(t.kids[i], n);
    forall j | 0 <= j < i ensures !Has(t.kids[j], n) { HasNamed(t.kids[j], n); }
    K.VictimFound(t.kids, i, n);
  }

  lemma {:induction false} SecretsHold(t: Tree, e: Pair)
    requires Named(t, e.a) <= 1 && Named(t, e.b) <= 1
    requires (Has(t, e.a) ==> e.sa == Victim(t, e.a).secret) && (Has(t, e.b) ==> e.sb == Victim(t, e.b).secret)
    ensures Holds(t, e)
  {
    forall i | 0 <= i < |t.kids| ensures Holds(t.kids[i], e) {
      ES.Apart(t, e, i);
      if Has(t.kids[i], e.a) { OnlyVictim(t, e.a, i); }
      if Has(t.kids[i], e.b) { OnlyVictim(t, e.b, i); }
      SecretsHold(t.kids[i], e);
    }
  }

  lemma {:induction false} PartnersFit(t: Tree, a: Name, b: Name)
    requires Fine(t) && a != b && Named(t, a) <= 1 && Named(t, b) <= 1
    ensures X.Setting(t, Partners(t, a, b))
  {
    SecretsHold(t, Partners(t, a, b));
  }

  /** The world after move m. */
  function Moves(w: World, m: Move): World
    requires m.Moved?
  {
    World(m.link, m.fifos, w.log + m.ev)
  }

  lemma {:induction false} ExchangeGoesOn(w: World, m: Move, t: Tree, e: Pair, p: FS.Pos, q: FS.Pos, rest: seq<Down>,
      base: seq<Event>,
                                          vis: seq<Event>, now: seq<Event>)
    requires Exchanging(w, t, e, p, rest, base, vis) && X.GoesOn(w.root, m, t, e, p, q, rest, vis, now)
    ensures Exchanging(Moves(w, m), t, e, q, rest, base, now)
  {
    assert w.log + m.ev == base + (vis + EA.Acquisitions(e, p) + m.ev);
  }

  lemma {:induction false} ExchangeEnds(w: World, m: Move, t: Tree, e: Pair, p: FS.Pos, rest: seq<Down>,
      base: seq<Event>, vis: seq<Event>)
    requires Exchanging(w, t, e, p, rest, base, vis) && X.Ends(w.root, m, t, e, p, rest, vis)
    ensures X.Finished(m.link, m.fifos, t, e, rest, X.ExchangeLog(t, e))
        && Moves(w, m).log == base + X.ExchangeLog(t, e)
  {
    assert w.log + m.ev == base + (vis + EA.Acquisitions(e, p) + m.ev);
  }

  lemma {:induction false} ExchangeStep(w: World, t: Tree, c: Cmd, rest: seq<Down>, base: seq<Event>, path: Path)
    requires Fine(t) && c.Exchange? && Acceptable(t, c) && Busy(w, t, c, rest, base) && Enabled(w, path)
    ensures || (Busy(Step(w, path), t, c, rest, base) && Pot(Step(w, path).root) < Pot(w.root))
            || (Done(Step(w, path), Do(t, c), rest, base + Says(t, c)) && Pot(w.root) > 0)
  {
    var e := Partners(t, c.a, c.b);
    PartnersFit(t, c.a, c.b);
    var p, vis :| Exchanging(w, t, e, p, rest, base, vis);
    var q, now := X.AnyStep(w.root, t, e, p, rest, vis, path);
    var m := StepAt(w.root, w.fifos, path);
    if X.GoesOn(w.root, m, t, e, p, q, rest, vis, now) {
      ExchangeGoesOn(w, m, t, e, p, q, rest, base, vis, now);
    } else {
      ExchangeEnds(w, m, t, e, p, rest, base, vis);
    }
  }

  // ---------- the first state of a command ----------

  /** An idle world with commands waiting is busy with the first of them. */
  lemma {:induction false} Starts(t: Tree, cmds: seq<Cmd>, log: seq<Event>)
    requires Fine(t) && cmds != [] && Acceptable(t, cmds[0])
    ensures Busy(Idle(t, cmds, log), t, cmds[0], Lines(cmds[1..]), log)
    ensures Pot(Idle(t, cmds, log).root) <= PER_SERVICE * Size(t)
  {
    var w, rest := Idle(t, cmds, log), Lines(cmds[1..]);
    assert w.root.down == [Line(cmds[0])] + rest;
    assert w.log[|log|..] == [];
    PotRest(t, []);
    match cmds[0] {
      case Spawn(_, _, _) =>
      case Kill(_) =>
      case Exchange(a, b) =>
        var e := Partners(t, a, b);
        var p := FS.Pos(0, 0);
        assert FS.Files(e, p) == map[] && EA.Acquisitions(e, p) == [];
        assert ES.Pending(w.root, t, e, 0, 0, p, rest, []);
        assert w.log == log + ([] + []);
        assert Exchanging(w, t, e, p, rest, log, []);
    }
  }

  // ---------- the Manager's tree stays well formed ----------

  lemma {:induction false} PlainInsert(t: Tree, c: Cmd)
    requires c.Spawn? && c.child != MANAGER && Plain(t.kids)
    ensures Insert(t, c).name == t.name && Plain(Insert(t, c).kids)
    decreases t, 1
  {
    if t.name != c.parent { PlainInsertAny(t.kids, c); }
  }

  lemma {:induction false} PlainInsertAny(ts: seq<Tree>, c: Cmd)
    requires c.Spawn? && c.child != MANAGER && Plain(ts)
    ensures Plain(InsertAny(ts, c))
    decreases ts, 0
  {
    if ts != [] {
      PlainInsert(ts[0], c);
      PlainInsertAny(ts[1..], c);
    }
  }

  lemma {:induction false} PlainRemove(t: Tree, n: Name)
    requires t.name != n && Plain(t.kids)
    ensures Remove(t, n).name == t.name && Plain(Remove(t, n).kids)
    decreases t, 1
  {
    PlainRemoveAny(t.kids, n);
  }

  lemma {:induction false} PlainRemoveAny(ts: seq<Tree>, n: Name)
    requires Plain(ts)
    ensures Plain(RemoveAny(ts, n))
    decreases ts, 0
  {
    if ts != [] {
      if ts[0].name != n { PlainRemove(ts[0], n); }
      PlainRemoveAny(ts[1..], n);
    }
  }

  lemma {:induction false} PlainSwap(t: Tree, e: Pair)
    requires Plain(t.kids)
    ensures Swap(t, e).name == t.name && Plain(Swap(t, e).kids)
  {
    forall i | 0 <= i < |t.kids| ensures Plain(Swap(t.kids[i], e).kids) { PlainSwap(t.kids[i], e); }
  }

  lemma {:induction false} StaysFine(t: Tree, c: Cmd)
    requires Fine(t) && Acceptable(t, c) && Do(t, c).Alive?
    ensures Fine(Do(t, c).tree)
  {
    match c {
      case Spawn(_, _, _) => PlainInsert(t, c);
      case Kill(n) => PlainRemove(t, n);
      case Exchange(a, b) => PlainSwap(t, Partners(t, a, b));
    }
  }

  // ---------- whole runs ----------

  /** World w is on the way through the script: busy with one of its commands, or at its end. */
  ghost predicate Reached(w: World, t: Tree, cmds: seq<Cmd>, log: seq<Event>)
    requires AcceptableAll(t, cmds)
    decreases cmds
  {
    if cmds == [] then w == Idle(t, [], log)
    else
      || Busy(w, t, cmds[0], Lines(cmds[1..]), log)
      || match Do(t, cmds[0])
         case Alive(t') => Reached(w, t', cmds[1..], log + Says(t, cmds[0]))
         case Gone(_, _) => w == Outcome(t, cmds, log)
  }

  ghost function BoundRest(t: Tree, cmds: seq<Cmd>): nat
    requires cmds != [] && AcceptableAll(t, cmds)
  {
    match Do(t, cmds[0])
    case Alive(t') => Bound(t', cmds[1..])
    case Gone(_, _) => 0
  }

  lemma {:induction false} AnyCommand(w: World, t: Tree, cmds: seq<Cmd>, log: seq<Event>, path: Path)
    requires Fine(t) && cmds != [] && AcceptableAll(t, cmds) && Enabled(w, path)
    requires Busy(w, t, cmds[0], Lines(cmds[1..]), log)
    ensures var w' := Step(w, path);
            || (Busy(w', t, cmds[0], Lines(cmds[1..]), log) && Pot(w'.root) < Pot(w.root))
            || (Done(w', Do(t, cmds[0]), Lines(cmds[1..]), log + Says(t, cmds[0])) && Pot(w.root) > 0)
  {
    var rest := Lines(cmds[1..]);
    match cmds[0] {
      case Spawn(_, _, _) => SpawnStep(w, t, cmds[0], rest, log, path);
      case Kill(_) => KillStep(w, t, cmds[0], rest, log, path);
      case Exchange(_, _) => ExchangeStep(w, t, cmds[0], rest, log, path);
    }
  }

  lemma {:induction false} NobodyLeft(w: World, t: Tree, sched: seq<Path>)
    requires w.root.proc == K.Alone(t, Dead) || w.root == Link([], [], Rest(t))
    requires Legal(w, sched)
    ensures sched == []
  {
    if sched != [] && w.root.proc != K.Alone(t, Dead) { QuietStuck([], t, w.fifos, sched[0]); }
  }

  lemma {:induction false} RunBusy(w: World, t: Tree, cmds: seq<Cmd>, log: seq<Event>, sched: seq<Path>)
    requires Fine(t) && cmds != [] && AcceptableAll(t, cmds) && Legal(w, sched)
    requires Busy(w, t, cmds[0], Lines(cmds[1..]), log)
    ensures |sched| <= Pot(w.root) + BoundRest(t, cmds)
    ensures Reached(After(w, sched), t, cmds, log)
    decreases |sched|, 0
  {
    if sched != [] {
      AnyCommand(w, t, cmds, log, sched[0]);
      var w' := Step(w, sched[0]);
      if Busy(w', t, cmds[0], Lines(cmds[1..]), log) && Pot(w'.root) < Pot(w.root) {
        RunBusy(w', t, cmds, log, sched[1..]);
      } else {
        match Do(t, cmds[0]) {
          case Alive(t') =>
            StaysFine(t, cmds[0]);
            RunIdle(w', t', cmds[1..], log + Says(t, cmds[0]), sched[1..]);
          case Gone(_, _) => NobodyLeft(w', t, sched[1..]);
        }
      }
    }
  }

  lemma {:induction false} RunIdle(w: World, t: Tree, cmds: seq<Cmd>, log: seq<Event>, sched: seq<Path>)
    requires Fine(t) && AcceptableAll(t, cmds) && Legal(w, sched) && w == Idle(t, cmds, log)
    ensures |sched| <= Bound(t, cmds)
    ensures Reached(After(w, sched), t, cmds, log)
    decreases |sched|, 1
  {
    if cmds == [] {
      NobodyLeft(w, t, sched);
    } else {
      Starts(t, cmds, log);
      RunBusy(w, t, cmds, log, sched);
    }
  }

  // ---------- what holds along the way ----------

  lemma {:induction false} CanMove(w: World, t: Tree, cmds: seq<Cmd>, log: seq<Event>) returns (path: Path)
    requires Fine(t) && cmds != [] && AcceptableAll(t, cmds)
    requires Busy(w, t, cmds[0], Lines(cmds[1..]), log)
    ensures Enabled(w, path)
  {
    var rest := Lines(cmds[1..]);
    match cmds[0] {
      case Spawn(_, _, _) => path := S.Progress(w.root, t, cmds[0], rest, w.log[|log|..], w.fifos);
      case Kill(n) => path := K.Progress(w.root, t, n, rest, w.log[|log|..], w.fifos);
      case Exchange(a, b) =>
        var e := Partners(t, a, b);
        PartnersFit(t, a, b);
        var p, vis :| Exchanging(w, t, e, p, rest, log, vis);
        path := X.Progress(w.root, t, e, p, rest, vis);
    }
  }

  lemma {:induction false} BusyTidy(w: World, t: Tree, c: Cmd, rest: seq<Down>, log: seq<Event>)
    requires Acceptable(t, c) && Busy(w, t, c, rest, log)
    ensures Tidy(w.root.proc)
  {
    match c {
      case Spawn(_, _, _) => S.RunningTidy(w.root, t, c, rest, w.log[|log|..]);
      case Kill(n) => K.RunningTidy(w.root, t, n, rest, w.log[|log|..]);
      case Exchange(a, b) =>
        var e := Partners(t, a, b);
        var p, vis :| Exchanging(w, t, e, p, rest, log, vis);
        X.RunningTidy(w.root, w.fifos, t, e, p, rest, vis);
    }
  }

  lemma {:induction false} BusyReady(w: World, t: Tree, cmds: seq<Cmd>, log: seq<Event>)
    requires cmds != [] && Acceptable(t, cmds[0]) && Busy(w, t, cmds[0], Lines(cmds[1..]), log)
    requires w.root.proc.pc == Ready
    ensures w == Idle(t, cmds, log)
  {
    assert Lines(cmds) == [Line(cmds[0])] + Lines(cmds[1..]);
    match cmds[0] {
      case Spawn(_, _, _) =>
        S.RunningReady(w.root, t, cmds[0], Lines(cmds[1..]), w.log[|log|..]);
        assert w.log == log + w.log[|log|..];
      case Kill(n) =>
        K.RunningReady(w.root, t, n, Lines(cmds[1..]), w.log[|log|..]);
        assert w.log == log + w.log[|log|..];
      case Exchange(a, b) =>
        var e := Partners(t, a, b);
        var p, vis :| Exchanging(w, t, e, p, Lines(cmds[1..]), log, vis);
        X.RunningReady(w.root, w.fifos, t, e, p, Lines(cmds[1..]), vis);
    }
  }

  /** Some of the commands are done and nothing is under way: this is what the Manager sees
      whenever it is ready for input. */
  ghost predicate AtRest(w: World, t: Tree, cmds: seq<Cmd>, log: seq<Event>)
    requires AcceptableAll(t, cmds)
    decreases cmds
  {
    || w == Idle(t, cmds, log)
    || (cmds != [] && Do(t, cmds[0]).Alive? && AtRest(w, Do(t, cmds[0]).tree, cmds[1..], log + Says(t, cmds[0])))
  }

  lemma {:induction false} AlongTheWay(w: World, t: Tree, cmds: seq<Cmd>, log: seq<Event>)
    requires Fine(t) && AcceptableAll(t, cmds) && Reached(w, t, cmds, log)
    ensures Tidy(w.root.proc)
    ensures w.root.proc.pc == Ready ==> AtRest(w, t, cmds, log)
    ensures Stuck(w) ==> w == Outcome(t, cmds, log)
    decreases cmds
  {
    if cmds == [] {
      RestTidy(t);
    } else if Busy(w, t, cmds[0], Lines(cmds[1..]), log) {
      BusyTidy(w, t, cmds[0], Lines(cmds[1..]), log);
      if w.root.proc.pc == Ready { BusyReady(w, t, cmds, log); }
      var path := CanMove(w, t, cmds, log);
    } else if Do(t, cmds[0]).Alive? {
      StaysFine(t, cmds[0]);
      AlongTheWay(w, Do(t, cmds[0]).tree, cmds[1..], log + Says(t, cmds[0]));
    }
  }

  /** From wherever a run has got to, it can be finished. */
  lemma {:induction false} Finish(w: World, t: Tree, cmds: seq<Cmd>, log: seq<Event>) returns (more: seq<Path>)
    requires Fine(t) && AcceptableAll(t, cmds) && Reached(w, t, cmds, log)
    ensures Legal(w, more) && After(w, more) == Outcome(t, cmds, log)
    decreases |cmds|, Pot(w.root)
  {
    more := [];
    if cmds != [] {
      var said := log + Says(t, cmds[0]);
      if Busy(w, t, cmds[0], Lines(cmds[1..]), log) {
        var path := CanMove(w, t, cmds, log);
        AnyCommand(w, t, cmds, log, path);
        var w' := Step(w, path);
        if Busy(w', t, cmds[0], Lines(cmds[1..]), log) && Pot(w'.root) < Pot(w.root) {
          more := Finish(w', t, cmds, log);
        } else if Do(t, cmds[0]).Alive? {
          var t' := Do(t, cmds[0]).tree;
          StaysFine(t, cmds[0]);
          if |cmds| > 1 { Starts(t', cmds[1..], said); }
          more := Finish(w', t', cmds[1..], said);
        }
        more := [path] + more;
      } else if Do(t, cmds[0]).Alive? {
        StaysFine(t, cmds[0]);
        more := Finish(w, Do(t, cmds[0]).tree, cmds[1..], said);
      }
    }
  }

  lemma {:induction false} LogGrows(w: World, sched: seq<Path>)
    requires Legal(w, sched)
    ensures w.log <= After(w, sched).log
    decreases sched
  {
    if sched != [] { LogGrows(Step(w, sched[0]), sched[1..]); }
  }

  // ---------- the main results ----------

  /** Message passing refines the tree operations. Take any tree at rest, any acceptable script of
      console commands, and any schedule of the processes' steps. The schedule is no longer than
      Bound. All along, no process fails and no command pipe holds two messages; whenever the
      Manager is ready for input, every process is idle, every pipe and fifo is gone or empty,
      and the tree is the result of the commands read so far; what has been printed is a prefix
      of the one transcript that the script determines; and if nothing can move, the run has
      come to the one outcome that the script determines. */
  lemma {:induction false} Refinement(t: Tree, cmds: seq<Cmd>, sched: seq<Path>)
    requires Fine(t) && AcceptableAll(t, cmds) && Legal(Idle(t, cmds, []), sched)
    ensures |sched| <= Bound(t, cmds)
    ensures var w := After(Idle(t, cmds, []), sched);
            && Tidy(w.root.proc)
            && (w.root.proc.pc == Ready ==> AtRest(w, t, cmds, []))
            && w.log <= Outcome(t, cmds, []).log
            && (Stuck(w) <==> w == Outcome(t, cmds, []))
  {
    var w := After(Idle(t, cmds, []), sched);
    RunIdle(Idle(t, cmds, []), t, cmds, [], sched);
    AlongTheWay(w, t, cmds, []);
    var more := Finish(w, t, cmds, []);
    LogGrows(w, more);
    OutcomeStuck(t, cmds, []);
  }

  lemma {:induction false} OutcomeStuck(t: Tree, cmds: seq<Cmd>, log: seq<Event>)
    requires AcceptableAll(t, cmds)
    ensures Stuck(Outcome(t, cmds, log))
    decreases cmds
  {
    if cmds == [] {
      forall path ensures !Enabled(Idle(t, [], log), path) { QuietStuck([], t, map[], path); }
    } else if Do(t, cmds[0]).Alive? {
      OutcomeStuck(Do(t, cmds[0]).tree, cmds[1..], log + Says(t, cmds[0]));
    }
  }

  /** The transcript and the final state do not depend on the schedule. */
  lemma {:induction false} ScheduleIndependence(t: Tree, cmds: seq<Cmd>, one: seq<Path>, two: seq<Path>)
    requires Fine(t) && AcceptableAll(t, cmds)
    requires Legal(Idle(t, cmds, []), one) && Stuck(After(Idle(t, cmds, []), one))
    requires Legal(Idle(t, cmds, []), two) && Stuck(After(Idle(t, cmds, []), two))
    ensures After(Idle(t, cmds, []), one) == After(Idle(t, cmds, []), two)
  {
    Refinement(t, cmds, one);
    Refinement(t, cmds, two);
  }

  // ---------- an exchange that finds one service only ----------

  /** The one service that there is has opened the fifo from b to a, and nobody opens the other end. */
  ghost predicate HalfOpen(w: World, t: Tree, a: Name, b: Name) {
    (b, a) in w.fifos && w.fifos[(b, a)] == if Named(t, a) == 1 then Fifo(Open, Unopened, [])
        else Fifo(Unopened, Open, [])
  }

  lemma {:induction false} StuckHalfOpen(w: World, t: Tree, e: Pair, p: FS.Pos, rest: seq<Down>, base: seq<Event>,
      vis: seq<Event>)
    requires X.Setting(t, e) && Hits(t, e) == 1 && Exchanging(w, t, e, p, rest, base, vis) && Stuck(w)
    ensures HalfOpen(w, t, e.a, e.b)
  {
    forall path ensures !StepAt(w.root, w.fifos, path).Moved? { assert !Enabled(w, path); }
    X.Hangs(w.root, t, e, p, rest, vis);
  }

  lemma {:induction false} Waiting(w: World, t: Tree, e: Pair, p: FS.Pos, rest: seq<Down>, base: seq<Event>,
      vis: seq<Event>, sched: seq<Path>)
    requires X.Setting(t, e) && Hits(t, e) == 1 && Exchanging(w, t, e, p, rest, base, vis) && Legal(w, sched)
    ensures sched != [] ==> After(w, sched).root.proc.pc != Ready
    ensures |sched| <= Pot(w.root) && (Stuck(After(w, sched)) ==> HalfOpen(After(w, sched), t, e.a, e.b))
    decreases sched
  {
    if sched == [] {
      if Stuck(w) { StuckHalfOpen(w, t, e, p, rest, base, vis); }
    } else {
      var q, now := X.AnyStep(w.root, t, e, p, rest, vis, sched[0]);
      ExchangeGoesOn(w, StepAt(w.root, w.fifos, sched[0]), t, e, p, q, rest, base, vis, now);
      Waiting(Step(w, sched[0]), t, e, q, rest, base, now, sched[1..]);
    }
  }

  /** Running such an exchange as far as it goes. */
  lemma {:induction false} Exhaust(w: World, t: Tree, e: Pair, p: FS.Pos, rest: seq<Down>, base: seq<Event>,
      vis: seq<Event>)
    returns (sched: seq<Path>)
    requires X.Setting(t, e) && Hits(t, e) == 1 && Exchanging(w, t, e, p, rest, base, vis)
    ensures Legal(w, sched) && Stuck(After(w, sched))
    decreases Pot(w.root)
  {
    sched := [];
    if !Stuck(w) {
      var path :| Enabled(w, path);
      var q, now := X.AnyStep(w.root, t, e, p, rest, vis, path);
      ExchangeGoesOn(w, StepAt(w.root, w.fifos, path), t, e, p, q, rest, base, vis, now);
      sched := Exhaust(Step(w, path), t, e, q, rest, base, now);
      sched := [path] + sched;
    }
  }

  /** Every run from w comes back to a Manager that is ready for input. */
  ghost predicate Completes(w: World) {
    forall sched :: Legal(w, sched) && Stuck(After(w, sched)) ==> After(w, sched).root.proc.pc == Ready
  }

  /** The exchange of two different names, neither of which occurs twice, comes to an end if and
      only if both occur or neither does. */
  lemma {:induction false} ExchangeCompletes(t: Tree, a: Name, b: Name)
    requires Fine(t) && a != b && Named(t, a) <= 1 && Named(t, b) <= 1
    ensures Completes(Idle(t, [Exchange(a, b)], [])) <==> Named(t, a) == Named(t, b)
  {
    var cmds := [Exchange(a, b)];
    var w := Idle(t, cmds, []);
    if Named(t, a) == Named(t, b) {
      forall sched | Legal(w, sched) && Stuck(After(w, sched)) ensures After(w, sched).root.proc.pc == Ready {
        assert AcceptableAll(t, cmds);
        Refinement(t, cmds, sched);
      }
    } else {
      var e := ExchangeBegins(t, a, b);
      var sched := Exhaust(w, t, e, FS.Pos(0, 0), [], [], []);
      assert Enabled(w, []);
      Waiting(w, t, e, FS.Pos(0, 0), [], [], [], sched);
    }
  }

  lemma {:induction false} ExchangeBegins(t: Tree, a: Name, b: Name) returns (e: Pair)
    requires Fine(t) && a != b && Named(t, a) <= 1 && Named(t, b) <= 1
    ensures e.a == a && e.b == b && X.Setting(t, e)
    ensures Exchanging(Idle(t, [Exchange(a, b)], []), t, e, FS.Pos(0, 0), [], [], [])
    ensures Pot(Idle(t, [Exchange(a, b)], []).root) <= PER_SERVICE * Size(t)
  {
    e := Partners(t, a, b);
    PartnersFit(t, a, b);
    PotRest(t, []);
    var w, p := Idle(t, [Exchange(a, b)], []), FS.Pos(0, 0);
    assert w.root.down == [Line(Exchange(a, b))] + [];
    assert FS.Files(e, p) == map[] && EA.Acquisitions(e, p) == [];
    assert w.log == [] + ([] + []);
  }

  /** When only one of the two exists, no run ever comes back to a Manager that is ready for input; after
      boundedly many steps nothing moves any more, and the one service that exists is left waiting in the open
      of the fifo from b to a. */
  lemma {:induction false} ExchangeHangs(t: Tree, a: Name, b: Name, sched: seq<Path>)
    requires Fine(t) && a != b && Named(t, a) <= 1 && Named(t, b) <= 1 && Named(t, a) != Named(t, b)
    requires Legal(Idle(t, [Exchange(a, b)], []), sched)
    ensures var w := After(Idle(t, [Exchange(a, b)], []), sched);
            && (sched != [] ==> w.root.proc.pc != Ready)
            && |sched| <= PER_SERVICE * Size(t)
            && (Stuck(w) ==> HalfOpen(w, t, a, b))
  {
    var e := ExchangeBegins(t, a, b);
    Waiting(Idle(t, [Exchange(a, b)], []), t, e, FS.Pos(0, 0), [], [], [], sched);
  }
}
