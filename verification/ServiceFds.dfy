/** File descriptors of the services: how `spawn_child` arranges the pipes of a new child. */
module ServiceFds {

  /** What a descriptor refers to: a standard stream, an end of a pipe, or the reading or writing end of a fifo. */
  datatype Target = Std(n: nat) | ReadEnd(pipe: nat) | WriteEnd(pipe: nat) | FifoEnd(reading: bool)

  datatype Slot = Slot(target: Target, cloexec: bool)

  type Table = map<nat, Slot>

  const PARENT_READ_FD := 3
  const PARENT_WRITE_FD := 4

  // ---------- the system calls ----------

  /** The lowest descriptor not below k that is free. */
  function Lowest(t: Table, k: nat): (fd: nat)
    ensures fd !in t && k <= fd && forall j :: k <= j < fd ==> j in t
    decreases set j | j in t.Keys && j >= k
  {
    if k !in t then k
    else
      var above, rest := set j | j in t.Keys && j >= k, set j | j in t.Keys && j >= k + 1;
      assert k in above && k !in rest && rest < above;
      Lowest(t, k + 1)
  }

  /** `open` of a fifo, which is not closed on exec. */
  function OpenFifo(t: Table, reading: bool): Table {
    t[Lowest(t, 0) := Slot(FifoEnd(reading), false)]
  }

  function Close(t: Table, fd: nat): Table {
    t - {fd}
  }

  /** A call on a descriptor that is not open fails and changes nothing. */
  function Dup(t: Table, fd: nat): Table {
    if fd !in t then t else t[Lowest(t, 0) := Slot(t[fd].target, false)]
  }

  function Dup2(t: Table, from: nat, to: nat): Table {
    if from !in t || from == to then t else t[to := Slot(t[from].target, false)]
  }

  function Exec(t: Table): Table {
    map fd | fd in t && !t[fd].cloexec :: t[fd]
  }

  // ---------- the tables of services ----------

  /** The descriptors a service starts with. */
  function Initial(manager: bool, read: nat, write: nat): Table {
    map[0 := Slot(Std(0), false), 1 := Slot(Std(1), false), 2 := Slot(Std(2), false)]
    + if manager then map[] else map[PARENT_READ_FD := Slot(ReadEnd(read), false),
        PARENT_WRITE_FD := Slot(WriteEnd(write), false)]
  }

  datatype Kid = Kid(readfd: nat, writefd: nat)

  function FdsOf(kids: seq<Kid>): seq<nat> {
    if kids == [] then [] else [kids[0].readfd, kids[0].writefd] + FdsOf(kids[1..])
  }

  ghost predicate Distinct(fds: seq<nat>) {
    forall i, j :: 0 <= i < j < |fds| ==> fds[i] != fds[j]
  }

  /** The first descriptor that is not one of the initial ones. The Manager has none at 3, so that
      a pipe end that a child will not keep lands there. */
  function Low(manager: bool): nat {
    if manager then 3 else 5
  }

  /** The descriptors below Low are the initial ones. */
  ghost predicate Base(t: Table, manager: bool, read: nat, write: nat) {
    && (forall fd: nat :: fd < 3 ==> fd in t && t[fd] == Slot(Std(fd), false))
    && (if manager then PARENT_READ_FD !in t
        else PARENT_READ_FD in t && t[PARENT_READ_FD] == Slot(ReadEnd(read), false)
             && PARENT_WRITE_FD in t && t[PARENT_WRITE_FD] == Slot(WriteEnd(write), false))
  }

  /** The others are close-on-exec, and two of them belong to each child. */
  ghost predicate Kids(t: Table, low: nat, kids: seq<Kid>) {
    && Distinct(FdsOf(kids))
    && (forall fd :: fd in t && fd >= low ==> t[fd].cloexec && fd in FdsOf(kids))
    && (forall fd :: fd in FdsOf(kids) ==> fd in t && fd >= low)
  }

  /** The table of a service between commands. */
  ghost predicate Shape(t: Table, manager: bool, read: nat, write: nat, kids: seq<Kid>) {
    Base(t, manager, read, write) && Kids(t, Low(manager), kids) && |t| == Low(manager) + 2 * |kids|
  }

  /** The two pipes of `spawn_child`: their four descriptors. */
  datatype Pipes = Pipes(t: Table, r1: nat, w1: nat, r2: nat, w2: nat)

  function MakePipes(t: Table, p2c: nat, c2p: nat): Pipes {
    var r1 := Lowest(t, 0);
    var t1 := t[r1 := Slot(ReadEnd(p2c), true)];
    var w1 := Lowest(t1, 0);
    var t2 := t1[w1 := Slot(WriteEnd(p2c), true)];
    var r2 := Lowest(t2, 0);
    var t3 := t2[r2 := Slot(ReadEnd(c2p), true)];
    var w2 := Lowest(t3, 0);
    Pipes(t3[w2 := Slot(WriteEnd(c2p), true)], r1, w1, r2, w2)
  }

  /** What the forked child does with its copy of the table, up to and including exec. */
  function ChildScript(p: Pipes): Table {
    var tmpWrite := Lowest(p.t, 0);
    var t1 := Dup(p.t, p.w2);
    var tmpRead := Lowest(t1, 0);
    var t2 := Dup(t1, p.r1);
    var t3 := Close(Close(Close(Close(t2, p.w2), p.r1), p.r2), p.w1);
    Shuffle(t3, tmpRead, tmpWrite)
  }

  /** Moving the two temporary descriptors to where the child expects its pipes. */
  function Shuffle(t: Table, tmpRead: nat, tmpWrite: nat): Table {
    Exec(Close(Close(Dup2(Dup2(t, tmpWrite, PARENT_WRITE_FD), tmpRead, PARENT_READ_FD), tmpRead), tmpWrite))
  }

  /** What the parent keeps: the end it writes commands to and the end it reads replies from. */
  function ParentScript(p: Pipes): Table {
    Close(Close(p.t, p.w2), p.r1)
  }

  /** Whatever descriptors the parent has open, the pipes land where the child's shuffle is safe. */
  lemma {:induction false} PipesApart(t: Table, manager: bool, read: nat, write: nat, p2c: nat, c2p: nat)
    requires Base(t, manager, read, write)
    ensures var p := MakePipes(t, p2c, c2p);
            && p.r1 !in t && p.w1 !in t && p.r2 !in t && p.w2 !in t
            && 2 < p.r1 < p.w1 < p.r2 < p.w2
            && PARENT_READ_FD in p.t && PARENT_WRITE_FD in p.t
            && (if manager then p.r1 == PARENT_READ_FD else p.r1 > 4)
  {
  }

  lemma {:induction false} Shuffled(t: Table, r: nat, w: nat, p2c: nat, c2p: nat)
    requires r > 4 && w > 4 && r != w
    requires r in t && w in t && t[r] == Slot(ReadEnd(p2c), false) && t[w] == Slot(WriteEnd(c2p), false)
    requires 0 in t && 1 in t && 2 in t && t[0] == Slot(Std(0), false) && t[1] == Slot(Std(1), false)
        && t[2] == Slot(Std(2), false)
    requires forall fd :: fd in t && fd > 4 && fd != r && fd != w ==> t[fd].cloexec
    ensures Shuffle(t, r, w) == Initial(false, p2c, c2p)
  {
    var got, want := Shuffle(t, r, w), Initial(false, p2c, c2p);
    assert forall fd :: fd in got <==> fd in want;
    assert forall fd :: fd in want ==> got[fd] == want[fd];
  }

  /** The exec'd child has the standard streams, the command pipe at 3 and the reply pipe at 4,
      and nothing else, whatever its parent had open. */
  lemma {:induction false} ChildTable(t: Table, manager: bool, read: nat, write: nat, kids: seq<Kid>, p2c: nat,
      c2p: nat)
    requires Shape(t, manager, read, write, kids)
    ensures ChildScript(MakePipes(t, p2c, c2p)) == Initial(false, p2c, c2p)
  {
    PipesApart(t, manager, read, write, p2c, c2p);
    ScriptWorks(MakePipes(t, p2c, c2p), p2c, c2p);
  }

  lemma {:induction false} ScriptWorks(p: Pipes, p2c: nat, c2p: nat)
    requires forall fd :: fd in p.t && fd > 4 ==> p.t[fd].cloexec
    requires forall fd :: 0 <= fd < 5 ==> fd in p.t
    requires forall fd: nat :: 0 <= fd < 3 ==> p.t[fd] == Slot(Std(fd), false)
    requires 2 < p.r1 < p.w1 < p.r2 < p.w2 && {p.r1, p.w1, p.r2, p.w2} <= p.t.Keys
    requires p.t[p.r1] == Slot(ReadEnd(p2c), true) && p.t[p.w2] == Slot(WriteEnd(c2p), true)
    ensures ChildScript(p) == Initial(false, p2c, c2p)
  {
    var w := Lowest(p.t, 0);
    var t1 := Dup(p.t, p.w2);
    var r := Lowest(t1, 0);
    var t3 := Close(Close(Close(Close(Dup(t1, p.r1), p.w2), p.r1), p.r2), p.w1);
    Shuffled(t3, r, w, p2c, c2p);
  }

  lemma {:induction false} FdsAppend(kids: seq<Kid>, k: Kid)
    ensures FdsOf(kids + [k]) == FdsOf(kids) + [k.readfd, k.writefd]
  {
    if kids == [] {
      assert kids + [k] == [k];
    } else {
      FdsAppend(kids[1..], k);
      assert (kids + [k])[1..] == kids[1..] + [k];
    }
  }

  lemma {:induction false} KidsGrow(t: Table, low: nat, kids: seq<Kid>, k: Kid, r: Target, w: Target)
    requires Kids(t, low, kids) && low <= k.readfd && low <= k.writefd && k.readfd != k.writefd && k.readfd !in t
        && k.writefd !in t
    ensures Kids(t[k.readfd := Slot(r, true)][k.writefd := Slot(w, true)], low, kids + [k])
  {
    FdsAppend(kids, k);
    var fds, fds' := FdsOf(kids), FdsOf(kids) + [k.readfd, k.writefd];
    assert forall fd :: fd in fds' <==> fd in fds || fd == k.readfd || fd == k.writefd;
    forall i, j | 0 <= i < j < |fds'| ensures fds'[i] != fds'[j] {
      if j < |fds| { assert fds'[i] == fds[i] && fds'[j] == fds[j]; }
      else if i < |fds| { assert fds[i] in fds; }
    }
  }

  /** The parent gains exactly two descriptors: where it reads replies and where it writes commands. */
  lemma {:induction false} ParentTable(t: Table, manager: bool, read: nat, write: nat, kids: seq<Kid>, p2c: nat,
      c2p: nat)
    requires Shape(t, manager, read, write, kids)
    ensures var p := MakePipes(t, p2c, c2p);
            && p.r2 !in t && p.w1 !in t
            && ParentScript(p) == t[p.r2 := Slot(ReadEnd(c2p), true)][p.w1 := Slot(WriteEnd(p2c), true)]
            && Shape(ParentScript(p), manager, read, write, kids + [Kid(p.r2, p.w1)])
  {
    var p := MakePipes(t, p2c, c2p);
    PipesApart(t, manager, read, write, p2c, c2p);
    assert ParentScript(p) == t[p.r2 := Slot(ReadEnd(c2p), true)][p.w1 := Slot(WriteEnd(p2c), true)];
    KidsGrow(t, Low(manager), kids, Kid(p.r2, p.w1), ReadEnd(c2p), WriteEnd(p2c));
  }

  /** The descriptors of the other children. */
  lemma {:induction false} FdsWithout(kids: seq<Kid>, i: nat)
    requires i < |kids| && Distinct(FdsOf(kids))
    ensures var r, w, rest := kids[i].readfd, kids[i].writefd, FdsOf(kids[..i] + kids[i + 1..]);
            && r != w && r in FdsOf(kids) && w in FdsOf(kids) && Distinct(rest)
            && forall fd :: fd in rest <==> fd in FdsOf(kids) && fd != r && fd != w
  {
    var r, w, a, b := kids[i].readfd, kids[i].writefd, FdsOf(kids[..i]), FdsOf(kids[i + 1..]);
    FdsSplit(kids, i);
    FdsConcat(kids[..i], kids[i + 1..]);
    Gap(a, r, w, b);
    var all := a + [r, w] + b;
    assert all[|a|] == r && all[|a| + 1] == w;
    assert forall fd :: fd in all <==> fd in a || fd == r || fd == w || fd in b;
  }

  lemma {:induction false} KidsShrink(t: Table, low: nat, kids: seq<Kid>, i: nat)
    requires Kids(t, low, kids) && i < |kids|
    ensures Kids(Close(Close(t, kids[i].readfd), kids[i].writefd), low, kids[..i] + kids[i + 1..])
  {
    FdsWithout(kids, i);
  }

  /** Closing the two descriptors of child i. */
  lemma {:induction false} ShapeShrinks(t: Table, manager: bool, read: nat, write: nat, kids: seq<Kid>, i: nat)
    requires Shape(t, manager, read, write, kids) && i < |kids|
    ensures Shape(Close(Close(t, kids[i].readfd), kids[i].writefd), manager, read, write, kids[..i] + kids[i + 1..])
  {
    KidsShrink(t, Low(manager), kids, i);
    var r, w := kids[i].readfd, kids[i].writefd;
    assert r != w && r in FdsOf(kids) && w in FdsOf(kids) by { FdsWithout(kids, i); }
    var t' := Close(Close(t, r), w);
    assert t'.Keys == t.Keys - {r, w} && |t'.Keys| == |t.Keys| - 2;
  }

  lemma {:induction false} FdsConcat(x: seq<Kid>, y: seq<Kid>)
    ensures FdsOf(x + y) == FdsOf(x) + FdsOf(y)
  {
    if x == [] {
      assert x + y == y;
    } else {
      FdsConcat(x[1..], y);
      assert (x + y)[1..] == x[1..] + y;
    }
  }

  lemma {:induction false} FdsSplit(kids: seq<Kid>, i: nat)
    requires i < |kids|
    ensures FdsOf(kids) == FdsOf(kids[..i]) + [kids[i].readfd, kids[i].writefd] + FdsOf(kids[i + 1..])
  {
    var one := [kids[i]];
    assert one[1..] == [] && kids == kids[..i] + one + kids[i + 1..];
    FdsConcat(kids[..i] + one, kids[i + 1..]);
    FdsConcat(kids[..i], one);
  }

  lemma {:induction false} Gap(a: seq<nat>, r: nat, w: nat, b: seq<nat>)
    requires Distinct(a + [r, w] + b)
    ensures r != w && r !in a + b && w !in a + b && Distinct(a + b)
  {
    var all, rest := a + [r, w] + b, a + b;
    assert all[|a|] == r && all[|a| + 1] == w;
    forall i | 0 <= i < |rest| ensures rest[i] != r && rest[i] != w {
      if i < |a| { assert all[i] == rest[i]; } else { assert all[i + 2] == rest[i]; }
    }
    forall i, j | 0 <= i < j < |rest| ensures rest[i] != rest[j] {
      var i', j' := if i < |a| then i else i + 2, if j < |a| then j else j + 2;
      assert all[i'] == rest[i] && all[j'] == rest[j];
    }
  }

  /** A fifo gets the descriptor 3 in the Manager, and one above the own pipes elsewhere; closing it restores the
      table, which has one descriptor more in between. */
  lemma {:induction false} OpenClose(t: Table, manager: bool, read: nat, write: nat, kids: seq<Kid>, reading: bool)
    requires Shape(t, manager, read, write, kids)
    ensures var fd := Lowest(t, 0);
            && (if manager then fd == 3 else fd > 4) && fd !in t
            && Close(OpenFifo(t, reading), fd) == t && |OpenFifo(t, reading)| == |t| + 1
  {
    var fd := Lowest(t, 0);
    assert Close(OpenFifo(t, reading), fd) == t;
    assert OpenFifo(t, reading).Keys == t.Keys + {fd};
  }

  /** A service without children that closes its own pipes keeps the standard streams only. */
  lemma {:induction false} LastCloses(t: Table, read: nat, write: nat)
    requires Shape(t, false, read, write, [])
    ensures Close(Close(t, PARENT_READ_FD), PARENT_WRITE_FD) == Initial(true, read, write)
  {
    var none: seq<Kid> := [];
    assert FdsOf(none) == [];
    assert forall fd :: fd in t ==> fd < 5;
  }

  lemma {:induction false} InitialShape(manager: bool, read: nat, write: nat)
    ensures Shape(Initial(manager, read, write), manager, read, write, [])
  {
    var t := Initial(manager, read, write);
    InitialSize(manager, read, write);
    InitialBase(manager, read, write);
    NoKids(t, Low(manager));
  }

  /** Where a service finds its two pipes. */
  lemma {:induction false} PipesInPlace(read: nat, write: nat)
    ensures var t := Initial(false, read, write);
            && t.Keys == {0, 1, 2, 3, 4} && Initial(true, read, write).Keys == {0, 1, 2}
            && t[3] == Slot(ReadEnd(read), false) && t[4] == Slot(WriteEnd(write), false)
            && forall fd: nat :: fd < 3 ==> t[fd] == Slot(Std(fd), false)
  {
  }

  lemma {:induction false} NoKids(t: Table, low: nat)
    requires forall fd :: fd in t ==> fd < low
    ensures Kids(t, low, [])
  {
    var none: seq<Kid> := [];
    assert FdsOf(none) == [];
  }

  lemma {:induction false} InitialBase(manager: bool, read: nat, write: nat)
    ensures Base(Initial(manager, read, write), manager, read, write)
    ensures forall fd :: fd in Initial(manager, read, write) ==> fd < Low(manager)
  {
  }

  lemma {:induction false} InitialSize(manager: bool, read: nat, write: nat)
    ensures |Initial(manager, read, write)| == Low(manager)
  {
    var t := Initial(manager, read, write);
    if manager { assert t.Keys == {0, 1, 2}; } else { assert t.Keys == {0, 1, 2, 3, 4}; }
  }

  // ---------- a service over its life ----------

  /** The descriptors of one service, and its list of children. */
  class Service {
    const manager: bool
    const read: nat
    const write: nat
    var fds: Table
    var childlist: seq<Kid>
    var childcount: nat

    ghost predicate Valid()
      reads this
    {
      Shape(fds, manager, read, write, childlist) && childcount == |childlist|
    }

    /** A service as exec leaves it. */
    constructor (manager: bool, read: nat, write: nat)
      ensures Valid() && this.manager == manager && this.read == read && this.write == write
      ensures childlist == [] && fds == Initial(manager, read, write)
    {
      this.manager, this.read, this.write := manager, read, write;
      fds, childlist, childcount := Initial(manager, read, write), [], 0;
      new;
      InitialShape(manager, read, write);
    }

    /** Forks a child over two new pipes; `childFds` are the child's descriptors after exec. */
    method SpawnChild(p2c: nat, c2p: nat) returns (childFds: Table)
      requires Valid()
      modifies this
      ensures Valid() && childFds == Initial(false, p2c, c2p)
      ensures |childlist| == |old(childlist)| + 1 && childlist[..|old(childlist)|] == old(childlist)
      ensures var k := childlist[|old(childlist)|];
              && k.readfd !in old(fds) && k.writefd !in old(fds)
              && fds == old(fds)[k.readfd := Slot(ReadEnd(c2p), true)][k.writefd := Slot(WriteEnd(p2c), true)]
      ensures |fds| == |old(fds)| + 2
    {
      var p := MakePipes(fds, p2c, c2p);
      childFds := ChildScript(p);
      assert childFds == Initial(false, p2c, c2p) by { ChildTable(fds, manager, read, write, childlist, p2c, c2p); }
      ParentTable(fds, manager, read, write, childlist, p2c, c2p);
      fds := ParentScript(p);
      childlist := childlist + [Kid(p.r2, p.w1)];
      childcount := childcount + 1;
    }

    /** Closes the pipes of a child that has exited and forgets it. */
    method LetChildSuicide(i: nat)
      requires Valid() && i < |childlist|
      modifies this
      ensures Valid() && childlist == old(childlist)[..i] + old(childlist)[i + 1..]
      ensures fds == old(fds) - {old(childlist)[i].readfd, old(childlist)[i].writefd}
      ensures |fds| == |old(fds)| - 2
    {
      ShapeShrinks(fds, manager, read, write, childlist, i);
      fds := Close(Close(fds, childlist[i].readfd), childlist[i].writefd);
      childlist := childlist[..i] + childlist[i + 1..];
      childcount := childcount - 1;
    }
  }
}
