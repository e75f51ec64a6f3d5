/** The processes of the service tree, the pipes between them, and the steps they take. */
module ServiceMachine {
  import opened ServiceTree

  /** What a parent writes to a child: a command line, or permission to exit (status 3). */
  datatype Down = Line(cmd: Cmd) | Agree

  /** What a child writes to its parent. */
  datatype Up = Byte(b: nat) | KillMsg(status: nat, count: nat)

  /** The local variables of `exchange`. */
  datatype Search = Search(a: Name, b: Name, found: nat, here: nat, wait0: int, wait1: int)

  /** Where a process stands in its program, with the locals that matter there. */
  datatype Pc =
    | Boot
    | Ready
    | SpawnSend(i: nat, c: Cmd)
    | SpawnAwait(i: nat, c: Cmd)
    | SpawnFork(c: Cmd)
    | SpawnBooted(c: Cmd)
    | SpawnReply(c: Cmd, ok: bool)
    | KillSend(i: nat, n: Name)
    | KillAwait(i: nat, n: Name)
    | KillAgree(i: nat, n: Name, count: nat)
    | KillReap(i: nat, n: Name, count: nat)
    | KillReply(n: Name, ok: bool, count: nat)
    | TermSend(acc: nat)
    | TermAwait(acc: nat)
    | TermAgree(acc: nat)
    | TermReap(acc: nat)
    | TermReply(acc: nat)
    | TermWait
    | Dead
    | XSend(i: nat, x: Search)
    | XAwait(i: nat, x: Search)
    | XReport(x: Search)
    | XFifo(k: nat, x: Search, got: nat)
    | XJoin(j: nat, x: Search)
    | XReply(x: Search)
    | Failed

  datatype Proc = Proc(name: Name, secret: nat, pc: Pc, kids: seq<Link>)

  /** A process with the two pipes that join it to its parent. */
  datatype Link = Link(down: seq<Down>, up: seq<Up>, proc: Proc)

  // ---------- named fifos ----------

  datatype End = Unopened | Open | Closed

  datatype Fifo = Fifo(reader: End, writer: End, buf: seq<nat>)

  /** The named fifos in the file system, by (from, to). */
  type Fifos = map<(Name, Name), Fifo>

  datatype FifoOp =
    | Make(f: (Name, Name))
    | OpenR(f: (Name, Name)) | SyncR(f: (Name, Name)) | Read(f: (Name, Name)) | CloseR(f: (Name, Name))
    | OpenW(f: (Name, Name)) | SyncW(f: (Name, Name)) | Write(f: (Name, Name)) | CloseW(f: (Name, Name))
    | Unlink(f: (Name, Name))

  const SCRIPT_LEN := 11

  /** The fifo part of `exchange`. Opening a fifo takes two steps: the open call becomes visible
      to the other side (`Open`), and it returns once the other side has opened too (`Sync`). */
  function Script(self: Name, peer: Name, first: bool): (s: seq<FifoOp>)
    ensures |s| == SCRIPT_LEN
  {
    var r, w := (peer, self), (self, peer);
    if first then
      [Make(r), Make(w), OpenR(r), SyncR(r), Read(r), CloseR(r), Unlink(r), OpenW(w), SyncW(w), Write(w), CloseW(w)]
    else
      [Make(r), Make(w), OpenW(w), SyncW(w), Write(w), CloseW(w), OpenR(r), SyncR(r), Read(r), CloseR(r), Unlink(r)]
  }

  datatype FifoResult = Wait | Error | Done(g: Fifos, value: nat)

  function FifoStep(op: FifoOp, g: Fifos, secret: nat): FifoResult {
    if op.Make? then Done(if op.f in g then g else g[op.f := Fifo(Unopened, Unopened, [])], 0)
    else if op.f !in g then (if op.CloseR? || op.CloseW? then Done(g, 0) else Error)
    else
      var q := g[op.f];
      match op
      case OpenR(f) => Done(g[f := q.(reader := Open)], 0)
      case OpenW(f) => Done(g[f := q.(writer := Open)], 0)
      case SyncR(f) => if q.writer == Unopened then Wait else Done(g, 0)
      case SyncW(f) => if q.reader == Unopened then Wait else Done(g, 0)
      case Read(f) =>
        if q.buf != [] then Done(g[f := q.(buf := q.buf[1..])], q.buf[0])
        else if q.writer == Closed then Error else Wait
      case Write(f) => if q.reader == Closed then Error else Done(g[f := q.(buf := q.buf + [secret])], 0)
      case CloseR(f) => Done(g[f := q.(reader := Closed)], 0)
      case CloseW(f) => Done(g[f := q.(writer := Closed)], 0)
      case Unlink(f) => Done(g - {f}, 0)
      case Make(f) => Done(g, 0)
  }

  // ---------- one process ----------

  function Goto(l: Link, pc: Pc): Link {
    Link(l.down, l.up, Proc(l.proc.name, l.proc.secret, pc, l.proc.kids))
  }

  /** Writes to the parent. */
  function Answer(l: Link, m: Up, pc: Pc): Link {
    Link(l.down, l.up + [m], Goto(l, pc).proc)
  }

  function SetKid(l: Link, i: nat, k: Link): Link
    requires i < |l.proc.kids|
  {
    Link(l.down, l.up, Proc(l.proc.name, l.proc.secret, l.proc.pc, l.proc.kids[i := k]))
  }

  /** Writes to child i. */
  function Tell(l: Link, i: nat, m: Down, pc: Pc): Link
    requires i < |l.proc.kids|
  {
    var k := l.proc.kids[i];
    Goto(SetKid(l, i, Link(k.down + [m], k.up, k.proc)), pc)
  }

  /** Takes the oldest message from child i. */
  function Hear(l: Link, i: nat, pc: Pc): Link
    requires i < |l.proc.kids| && l.proc.kids[i].up != []
  {
    var k := l.proc.kids[i];
    Goto(SetKid(l, i, Link(k.down, k.up[1..], k.proc)), pc)
  }

  /** Waits for child i to exit and closes its pipes. */
  function Reap(l: Link, i: nat, pc: Pc): Link
    requires i < |l.proc.kids|
  {
    Link(l.down, l.up, Proc(l.proc.name, l.proc.secret, pc, l.proc.kids[..i] + l.proc.kids[i + 1..]))
  }

  function SpawnAt(i: nat, n: nat, c: Cmd): Pc {
    if i < n then SpawnSend(i, c) else SpawnReply(c, false)
  }

  function KillAt(i: nat, n: nat, name: Name): Pc {
    if i < n then KillSend(i, name) else KillReply(name, false, 0)
  }

  function TermAt(n: nat, acc: nat): Pc {
    if n > 0 then TermSend(acc) else TermReply(acc)
  }

  function SearchAt(i: nat, n: nat, x: Search): Pc {
    if i < n && x.found + x.here < 2 then XSend(i, x) else XReport(x)
  }

  function JoinAt(j: nat, x: Search): Pc {
    if j == 0 && x.wait0 != -1 then XJoin(0, x)
    else if j <= 1 && x.wait1 != -1 then XJoin(1, x)
    else XReply(x)
  }

  function StartSearch(name: Name, a: Name, b: Name, found: nat): Search {
    Search(a, b, found, if name == a || name == b then 1 else 0, -1, -1)
  }

  /** What `main` does with a command line. */
  function Dispatch(name: Name, n: nat, m: Down): Pc {
    match m
    case Agree => Failed
    case Line(c) =>
      match c
      case Spawn(parent, child, seed) => if name == parent then SpawnFork(c) else SpawnAt(0, n, c)
      case Kill(target) => if name == target then TermAt(n, 0) else KillAt(0, n, target)
      case Killall => if name == MANAGER then Failed else TermAt(n, 0)
      case Exchange(a, b) => SearchAt(0, n, StartSearch(name, a, b, 0))
      case FoundOne(a, b) => if name == MANAGER then Failed else SearchAt(0, n, StartSearch(name, a, b, 1))
  }

  /** The "has received" line: `killall` prints none and `exchange_foundone` prints as `exchange`. */
  function Announce(name: Name, m: Down): seq<Event> {
    match m
    case Agree => []
    case Line(Killall) => []
    case Line(FoundOne(a, b)) => [Received(name, Exchange(a, b))]
    case Line(c) => [Received(name, c)]
  }

  /** `to_wait` and `found_here` after a child has reported its count. */
  function Count(x: Search, i: nat, m: nat): Search {
    if m == 2 then x.(wait0 := i, here := 2)
    else if m == 1 then
      if x.here == 0 then x.(wait0 := i, here := 1) else x.(wait1 := i, here := x.here + 1)
    else x
  }

  datatype Move = Blocked | Moved(link: Link, fifos: Fifos, ev: seq<Event>)

  /** The next atomic step of the process at the end of link l: at most one pipe or fifo operation. */
  function StepNode(l: Link, g: Fifos): Move {
    var p := l.proc;
    var n := |p.kids|;
    var mgr := p.name == MANAGER;
    match p.pc
    case Boot => Moved(Answer(l, Byte(1), Ready), g, [Booted(p.name, p.secret)])
    case Ready =>
      if l.down == [] then Blocked
      else if !mgr && |l.down| > 1 then Moved(Goto(l, Failed), g, [])   // two messages read as one
      else Moved(Goto(l, Dispatch(p.name, n, l.down[0])).(down := l.down[1..]), g, Announce(p.name, l.down[0]))

    case SpawnSend(i, c) =>
      if i < n then Moved(Tell(l, i, Line(c), SpawnAwait(i, c)), g, []) else Blocked
    case SpawnAwait(i, c) =>
      if i >= n || p.kids[i].up == [] then Blocked
      else Moved(Hear(l, i, if p.kids[i].up[0] == Byte(1) then SpawnReply(c, true) else SpawnAt(i + 1, n, c)), g, [])
    case SpawnFork(c) =>
      if !c.Spawn? then Blocked
      else Moved(Link(l.down, l.up, Proc(p.name, p.secret, SpawnBooted(c),
                                          p.kids + [Link([], [], Proc(c.child, c.seed, Boot, []))])), g, [])
    case SpawnBooted(c) =>
      if n == 0 || p.kids[n - 1].up == [] then Blocked
      else Moved(Hear(l, n - 1, if p.kids[n - 1].up[0] == Byte(1) then SpawnReply(c, true) else Failed), g, [])
    case SpawnReply(c, ok) =>
      if !c.Spawn? then Blocked
      else if mgr then Moved(Goto(l, Ready), g, [if ok then Spawned(c.parent, c.child) else NotExist(c.parent)])
      else Moved(Answer(l, Byte(if ok then 1 else 0), Ready), g, [])

    case KillSend(i, name) =>
      if i < n then Moved(Tell(l, i, Line(Kill(name)), KillAwait(i, name)), g, []) else Blocked
    case KillAwait(i, name) =>
      if i >= n || p.kids[i].up == [] then Blocked
      else Moved(Hear(l, i,
        match p.kids[i].up[0]
        case KillMsg(0, _) => KillAt(i + 1, n, name)
        case KillMsg(1, count) => KillReply(name, true, count)
        case KillMsg(2, count) => KillAgree(i, name, count)
        case _ => Failed), g, [])
    case KillAgree(i, name, count) =>
      if i < n then Moved(Tell(l, i, Agree, KillReap(i, name, count)), g, []) else Blocked
    case KillReap(i, name, count) =>
      if i >= n || !p.kids[i].proc.pc.Dead? then Blocked
      else Moved(Reap(l, i, KillReply(name, true, count)), g, [])
    case KillReply(name, ok, count) =>
      if mgr then Moved(Goto(l, Ready), g, [if ok then Killed(name, count) else NotExist(name)])
      else Moved(Answer(l, if ok then KillMsg(1, count) else KillMsg(0, 0), Ready), g, [])

    case TermSend(acc) =>
      if n == 0 then Blocked else Moved(Tell(l, 0, Line(Killall), TermAwait(acc)), g, [])
    case TermAwait(acc) =>
      if n == 0 || p.kids[0].up == [] then Blocked
      else Moved(Hear(l, 0,
        match p.kids[0].up[0]
        case KillMsg(2, count) => TermAgree((acc + count + 1) % 256)
        case _ => Failed), g, [])
    case TermAgree(acc) =>
      if n == 0 then Blocked else Moved(Tell(l, 0, Agree, TermReap(acc)), g, [])
    case TermReap(acc) =>
      if n == 0 || !p.kids[0].proc.pc.Dead? then Blocked
      else Moved(Reap(l, 0, TermAt(n - 1, acc)), g, [])
    case TermReply(acc) =>
      if mgr then Moved(Goto(l, Dead), g, [Killed(p.name, acc)])
      else Moved(Answer(l, KillMsg(2, acc), TermWait), g, [])
    case TermWait =>
      if l.down == [] then Blocked
      else Moved(Goto(l, if l.down[0] == Agree then Dead else Failed).(down := l.down[1..]), g, [])
    case Dead => Blocked

    case XSend(i, x) =>
      if i >= n then Blocked
      else Moved(Tell(l, i, Line(if x.found + x.here == 1 then FoundOne(x.a, x.b) else Exchange(x.a, x.b)),
          XAwait(i, x)), g, [])
    case XAwait(i, x) =>
      if i >= n || p.kids[i].up == [] then Blocked
      else Moved(Hear(l, i,
        match p.kids[i].up[0]
        case Byte(m) => SearchAt(i + 1, n, Count(x, i, m))
        case _ => Failed), g, [])
    case XReport(x) =>
      var next := if x.here == 0 then Ready
                  else if p.name == x.a || p.name == x.b then XFifo(0, x, 0) else JoinAt(0, x);
      if mgr then Moved(Goto(l, next), g, if x.found + x.here < 2 then [Missing(x.a, x.b)] else [])
      else Moved(Answer(l, Byte(x.here), next), g, [])
    case XFifo(k, x, got) =>
      if k >= SCRIPT_LEN then Blocked
      else
        var first := p.name == x.a;
        var peer := if first then x.b else x.a;
        var op := Script(p.name, peer, first)[k];
        (match FifoStep(op, g, p.secret)
        case Wait => Blocked
        case Error => Moved(Goto(l, Failed), g, [])
        case Done(g', v) =>
          var got' := if op.Read? then v else got;
          var ev := if op.Read? then [Acquired(p.name, peer, v)] else [];
          if k + 1 < SCRIPT_LEN then Moved(Goto(l, XFifo(k + 1, x, got')), g', ev)
          else Moved(Link(l.down, l.up, Proc(p.name, got', JoinAt(0, x), p.kids)), g', ev))
    case XJoin(j, x) =>
      var i := if j == 0 then x.wait0 else x.wait1;
      if !(0 <= i < n) || p.kids[i].up == [] then Blocked
      else Moved(Hear(l, i, if p.kids[i].up[0] == Byte(0) then JoinAt(j + 1, x) else Failed), g, [])
    case XReply(x) =>
      if mgr then Moved(Goto(l, Ready), g, [Exchanged(x.a, x.b)])
      else Moved(Answer(l, Byte(0), Ready), g, [])
    case Failed => Blocked
  }

  /** A step of the process that `path` leads to from l. */
  function StepAt(l: Link, g: Fifos, path: seq<nat>): Move
    decreases path
  {
    if path == [] then StepNode(l, g)
    else if path[0] >= |l.proc.kids| then Blocked
    else
      match StepAt(l.proc.kids[path[0]], g, path[1..])
      case Blocked => Blocked
      case Moved(k, g', ev) => Moved(SetKid(l, path[0], k), g', ev)
  }

  // ---------- configurations at rest ----------

  /** Every process of the tree waits for a command. */
  ghost function Rest(t: Tree): Proc {
    Proc(t.name, t.secret, Ready, seq(|t.kids|, i requires 0 <= i < |t.kids| => Link([], [], Rest(t.kids[i]))))
  }

  /** A tree at rest behind two empty pipes. */
  ghost function Quiet(t: Tree): Link {
    Link([], [], Rest(t))
  }

  /** Nothing moves in a tree at rest until a command arrives. */
  lemma {:induction false} QuietStuck(up: seq<Up>, t: Tree, g: Fifos, path: seq<nat>)
    ensures StepAt(Link([], up, Rest(t)), g, path) == Blocked
    decreases path
  {
    if path != [] && path[0] < |t.kids| {
      QuietStuck([], t.kids[path[0]], g, path[1..]);
    }
  }

  /** All children are at rest, except child `but`. */
  ghost predicate Still(kids: seq<Link>, ts: seq<Tree>, but: int) {
    && |kids| == |ts|
    && forall j :: 0 <= j < |ts| && j != but ==> kids[j] == Quiet(ts[j])
  }

  lemma {:induction false} StillStuck(l: Link, ts: seq<Tree>, but: int, g: Fifos, path: seq<nat>)
    requires Still(l.proc.kids, ts, but) && path != [] && path[0] != but
    ensures StepAt(l, g, path) == Blocked
  {
    if path[0] < |ts| {
      QuietStuck([], ts[path[0]], g, path[1..]);
    }
  }

  lemma StillSet(kids: seq<Link>, ts: seq<Tree>, i: nat, u: Tree)
    requires i < |ts| && Still(kids, ts, i)
    ensures Still(kids[i := Quiet(u)], ts[i := u], -1)
  {
  }

  lemma StillCut(kids: seq<Link>, ts: seq<Tree>, i: nat)
    requires i < |ts| && Still(kids, ts, i)
    ensures Still(kids[..i] + kids[i + 1..], ts[..i] + ts[i + 1..], -1)
  {
  }

  // ---------- what must never happen ----------

  /** No process has failed, and no parent-to-child pipe holds two messages, which the unframed
      read of the child would take for one. */
  ghost predicate Tidy(p: Proc) {
    p.pc != Failed && forall i :: 0 <= i < |p.kids| ==> |p.kids[i].down| <= 1 && Tidy(p.kids[i].proc)
  }

  lemma {:induction false} RestTidy(t: Tree)
    ensures Tidy(Rest(t))
  {
    forall i | 0 <= i < |t.kids| ensures Tidy(Rest(t).kids[i].proc) { RestTidy(t.kids[i]); }
  }

  lemma {:induction false} StillTidy(p: Proc, ts: seq<Tree>, but: int)
    requires Still(p.kids, ts, but) && p.pc != Failed
    requires 0 <= but < |ts| ==> |p.kids[but].down| <= 1 && Tidy(p.kids[but].proc)
    ensures Tidy(p)
  {
    forall i | 0 <= i < |p.kids| && i != but ensures Tidy(p.kids[i].proc) { RestTidy(ts[i]); }
  }
}
