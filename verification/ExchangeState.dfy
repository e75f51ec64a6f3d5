/** The states an `exchange` passes through, subtree by subtree. */
module ExchangeState {
  import opened ServiceTree
  import opened ServiceMachine
  import opened FifoSwap

  // ---------- script positions against tallies ----------

  /** Services of which there are na, nb have not started their scripts. */
  predicate Fresh(na: nat, nb: nat, p: Pos) {
    (na > 0 ==> p.a == 0) && (nb > 0 ==> p.b == 0)
  }

  /** They are through with their scripts. */
  predicate Through(na: nat, nb: nat, p: Pos) {
    (na > 0 ==> p.a == SCRIPT_LEN) && (nb > 0 ==> p.b == SCRIPT_LEN)
  }

  /** Nobody else has started. */
  predicate Within(na: nat, nb: nat, p: Pos) {
    (p.a > 0 ==> na > 0) && (p.b > 0 ==> nb > 0)
  }

  /** Nobody else moved between p and q. */
  predicate Moves(na: nat, nb: nat, p: Pos, q: Pos) {
    (p.a != q.a ==> na > 0) && (p.b != q.b ==> nb > 0)
  }

  /** They did not move between p and q. */
  predicate Same(na: nat, nb: nat, p: Pos, q: Pos) {
    (na > 0 ==> p.a == q.a) && (nb > 0 ==> p.b == q.b)
  }

  // The same for the services of a subtree, and for the one at its top.

  ghost predicate FreshTree(t: Tree, e: Pair, p: Pos) { Fresh(Named(t, e.a), Named(t, e.b), p) }
  ghost predicate ThroughTree(t: Tree, e: Pair, p: Pos) { Through(Named(t, e.a), Named(t, e.b), p) }
  ghost predicate MovesTree(t: Tree, e: Pair, p: Pos, q: Pos) { Moves(Named(t, e.a), Named(t, e.b), p, q) }
  ghost predicate SameTree(t: Tree, e: Pair, p: Pos, q: Pos) { Same(Named(t, e.a), Named(t, e.b), p, q) }
  predicate FreshOwn(t: Tree, e: Pair, p: Pos) { Fresh(Self(t, e.a), Self(t, e.b), p) }
  predicate ThroughOwn(t: Tree, e: Pair, p: Pos) { Through(Self(t, e.a), Self(t, e.b), p) }
  predicate MovesOwn(t: Tree, e: Pair, p: Pos, q: Pos) { Moves(Self(t, e.a), Self(t, e.b), p, q) }

  // ---------- counting ----------

  /** Occurrences of n: y before t, and those at t and below its first i children. */
  ghost function Past(t: Tree, n: Name, y: nat, i: nat): nat
    requires i <= |t.kids|
  {
    y + Self(t, n) + NamedUpto(t.kids, n, i)
  }

  /** Neither name occurs twice, the services counted before t included. */
  ghost predicate Room(t: Tree, e: Pair, ya: nat, yb: nat) {
    ya + Named(t, e.a) <= 1 && yb + Named(t, e.b) <= 1
  }

  /** `to_wait` holds exactly the children, among the first i, below which something was found. */
  ghost predicate Waits(x: Search, t: Tree, e: Pair, i: nat) {
    && i <= |t.kids|
    && -1 <= x.wait0 < i && -1 <= x.wait1 < i && (x.wait0 == x.wait1 ==> x.wait0 == -1)
    && forall j :: 0 <= j < i ==> (Hits(t.kids[j], e) > 0 <==> (j == x.wait0 || j == x.wait1))
  }

  ghost predicate Counted(x: Search, t: Tree, e: Pair, ya: nat, yb: nat, i: nat) {
    && x.a == e.a && x.b == e.b && x.found == ya + yb
    && Waits(x, t, e, i) && x.here == OwnHits(t, e) + HitsUpto(t.kids, e, i)
    && (x.here == 0 ==> x.wait0 == -1) && (x.here <= 1 ==> x.wait1 == -1)
  }

  function Order(e: Pair, ya: nat, yb: nat): Cmd {
    if ya + yb == 1 then FoundOne(e.a, e.b) else Exchange(e.a, e.b)
  }

  // ---------- after the report ----------

  /** Child k has been counted and its count has been read. */
  ghost predicate Settled(k: Link, t: Tree, e: Pair, p: Pos)
    decreases t, 3
  {
    if Hits(t, e) == 0 then k == Quiet(t) else Posted(k, t, e, p, [])
  }

  /** A subtree with targets that has reported its count; c is the count if it is still unread. */
  ghost predicate Posted(k: Link, t: Tree, e: Pair, p: Pos, c: seq<Up>)
    decreases t, 2
  {
    || Acting(k, t, e, p, [], c)
    || (k == Link([], c + [Byte(0)], Rest(Swap(t, e))) && ThroughTree(t, e, p))
  }

  ghost predicate SettledKids(kids: seq<Link>, t: Tree, e: Pair, p: Pos, but: int)
    decreases t, 0
  {
    && |kids| == |t.kids|
    && forall j :: 0 <= j < |t.kids| && j != but ==> Settled(kids[j], t.kids[j], e, p)
  }

  ghost predicate Joined(k: Link, t: Tree, e: Pair, p: Pos) {
    k == Quiet(Swap(t, e)) && ThroughTree(t, e, p)
  }

  /** The swap itself, and waiting for the children that take part. */
  ghost predicate Acting(l: Link, t: Tree, e: Pair, p: Pos, rest: seq<Down>, c: seq<Up>)
    decreases t, 1
  {
    var kids := l.proc.kids;
    var n := |t.kids|;
    && l.down == rest && l.up == c && l.proc.name == t.name && |kids| == n
    && (match l.proc.pc
        case XFifo(k, x, got) =>
          && x.a == e.a && x.b == e.b && Waits(x, t, e, n) && SettledKids(kids, t, e, p, -1)
          && l.proc.secret == t.secret && k < SCRIPT_LEN && OwnHits(t, e) > 0
          && (t.name == e.a ==> k == p.a && (k >= 5 ==> got == e.sb))
          && (t.name == e.b ==> k == p.b && (k >= 9 ==> got == e.sa))
        case XJoin(j, x) =>
          && x.a == e.a && x.b == e.b && Waits(x, t, e, n)
          && l.proc.secret == NewSecret(t, e) && ThroughOwn(t, e, p)
          && (j == 0 || j == 1) && (if j == 0 then x.wait0 else x.wait1) != -1
          && SettledKids(kids, t, e, p, if j == 0 then -1 else x.wait0)
          && (j == 1 && x.wait0 != -1 ==> Joined(kids[x.wait0], t.kids[x.wait0], e, p))
        case XReply(x) =>
          && x.a == e.a && x.b == e.b
          && l.proc.secret == NewSecret(t, e) && ThroughOwn(t, e, p)
          && forall j :: 0 <= j < n ==> Joined(kids[j], t.kids[j], e, p)
        case _ => false)
  }

  // ---------- before the report ----------

  ghost predicate FreshKids(kids: seq<Link>, ts: seq<Tree>, e: Pair, p: Pos, i: nat) {
    && |kids| == |ts|
    && forall j :: i <= j < |ts| ==> kids[j] == Quiet(ts[j]) && FreshTree(ts[j], e, p)
  }

  ghost predicate SettledUpto(kids: seq<Link>, ts: seq<Tree>, e: Pair, p: Pos, i: nat) {
    && i <= |kids| == |ts|
    && forall j :: 0 <= j < i ==> Settled(kids[j], ts[j], e, p)
  }

  /** Subtree t has been told to count and has not reported; y was counted before it, and it has
      printed `seen` so far. */
  ghost predicate Pending(l: Link, t: Tree, e: Pair, ya: nat, yb: nat, p: Pos, rest: seq<Down>, seen: seq<Event>)
    decreases t, 1
  {
    || (l == Link([Line(Order(e, ya, yb))] + rest, [], Rest(t)) && ya + yb < 2
        && FreshTree(t, e, p) && Within(ya, yb, p) && seen == [])
    || Counting(l, t, e, ya, yb, p, rest, seen)
  }

  ghost predicate Counting(l: Link, t: Tree, e: Pair, ya: nat, yb: nat, p: Pos, rest: seq<Down>, seen: seq<Event>)
    decreases t, 0
  {
    var kids := l.proc.kids;
    && l.down == rest && l.up == [] && l.proc.name == t.name && l.proc.secret == t.secret
    && FreshOwn(t, e, p) && ya + yb < 2
    && (match l.proc.pc
        case XSend(i, x) =>
          && i < |t.kids| && Counted(x, t, e, ya, yb, i) && x.found + x.here < 2
          && SettledUpto(kids, t.kids, e, p, i) && FreshKids(kids, t.kids, e, p, i)
          && Within(Past(t, e.a, ya, i), Past(t, e.b, yb, i), p)
          && seen == Announced(t, e, ya, yb, i)
        case XAwait(i, x) =>
          && i < |t.kids| && Counted(x, t, e, ya, yb, i) && x.found + x.here < 2
          && SettledUpto(kids, t.kids, e, p, i) && FreshKids(kids, t.kids, e, p, i + 1)
          && Announced(t, e, ya, yb, i) <= seen
          && var sub, za, zb := seen[|Announced(t, e, ya, yb, i)|..], Past(t, e.a, ya, i), Past(t, e.b, yb, i);
          (Pending(kids[i], t.kids[i], e, za, zb, p, [], sub) || Reported(kids[i], t.kids[i], e, za, zb, p, sub))
        case XReport(x) =>
          && Counted(x, t, e, ya, yb, |t.kids|) && SettledKids(kids, t, e, p, -1)
          && Within(ya + Named(t, e.a), yb + Named(t, e.b), p)
          && seen == ExchangeVisits(t, e, ya + yb)
        case _ => false)
  }

  ghost function Announced(t: Tree, e: Pair, ya: nat, yb: nat, i: nat): seq<Event>
    requires i <= |t.kids|
  {
    [Received(t.name, Exchange(e.a, e.b))] + ExchangeVisitsUpto(t.kids, e, ya + yb + OwnHits(t, e), i)
  }

  /** Subtree t has written its count, and its parent has not read it yet. */
  ghost predicate Reported(k: Link, t: Tree, e: Pair, ya: nat, yb: nat, p: Pos, seen: seq<Event>)
    decreases t, 4
  {
    var c := [Byte(Hits(t, e))];
    && (if Hits(t, e) == 0 then k == Link([], c, Rest(t)) else Posted(k, t, e, p, c))
    && Within(ya + Named(t, e.a), yb + Named(t, e.b), p) && seen == ExchangeVisits(t, e, ya + yb)
  }

  // ---------- tallies ----------

  lemma {:induction false} NamedOne(ts: seq<Tree>, n: Name, i: nat, m: nat)
    requires i < m <= |ts|
    ensures NamedUpto(ts, n, m) >= Named(ts[i], n)
  {
    if i < m - 1 { NamedOne(ts, n, i, m - 1); }
  }

  lemma {:induction false} NamedTwo(ts: seq<Tree>, n: Name, i: nat, j: nat, m: nat)
    requires i < j < m <= |ts|
    ensures NamedUpto(ts, n, m) >= Named(ts[i], n) + Named(ts[j], n)
  {
    if j < m - 1 { NamedTwo(ts, n, i, j, m - 1); } else { NamedOne(ts, n, i, m - 1); }
  }

  /** A name that occurs once in t occurs at t itself or below one child only. */
  lemma {:induction false} ApartName(t: Tree, n: Name, i: nat)
    requires i < |t.kids|
    ensures Named(t, n) >= Self(t, n) + Named(t.kids[i], n)
    ensures forall j :: 0 <= j < |t.kids| && j != i ==> Named(t, n) >= Named(t.kids[i], n) + Named(t.kids[j], n)
  {
    NamedOne(t.kids, n, i, |t.kids|);
    forall j | 0 <= j < |t.kids| && j != i ensures Named(t, n) >= Named(t.kids[i], n) + Named(t.kids[j], n) {
      if j < i { NamedTwo(t.kids, n, j, i, |t.kids|); } else { NamedTwo(t.kids, n, i, j, |t.kids|); }
    }
  }

  lemma {:induction false} Apart(t: Tree, e: Pair, i: nat)
    requires i < |t.kids|
    ensures Named(t, e.a) >= Self(t, e.a) + Named(t.kids[i], e.a)
    ensures Named(t, e.b) >= Self(t, e.b) + Named(t.kids[i], e.b)
    ensures forall j :: 0 <= j < |t.kids| && j != i ==>
      && Named(t, e.a) >= Named(t.kids[i], e.a) + Named(t.kids[j], e.a)
      && Named(t, e.b) >= Named(t.kids[i], e.b) + Named(t.kids[j], e.b)
  {
    ApartName(t, e.a, i);
    ApartName(t, e.b, i);
  }

  lemma {:induction false} SwapNone(t: Tree, e: Pair)
    requires Hits(t, e) == 0
    ensures Swap(t, e) == t
  {
    forall i | 0 <= i < |t.kids| ensures Swap(t.kids[i], e) == t.kids[i] {
      Apart(t, e, i);
      SwapNone(t.kids[i], e);
    }
    assert Swap(t, e).kids == t.kids;
  }

  // ---------- a step elsewhere changes nothing here ----------

  lemma {:induction false} SettledFrame(k: Link, t: Tree, e: Pair, p: Pos, q: Pos)
    requires Settled(k, t, e, p) && SameTree(t, e, p, q)
    ensures Settled(k, t, e, q)
    decreases t, 3
  {
    if Hits(t, e) > 0 { PostedFrame(k, t, e, p, q, []); }
  }

  lemma {:induction false} PostedFrame(k: Link, t: Tree, e: Pair, p: Pos, q: Pos, c: seq<Up>)
    requires Posted(k, t, e, p, c) && SameTree(t, e, p, q)
    ensures Posted(k, t, e, q, c)
    decreases t, 2
  {
    if Acting(k, t, e, p, [], c) { ActingFrame(k, t, e, p, q, [], c); }
  }

  lemma {:induction false} KidsFrame(kids: seq<Link>, t: Tree, e: Pair, p: Pos, q: Pos, but: int)
    requires SettledKids(kids, t, e, p, but)
    requires forall j :: 0 <= j < |t.kids| && j != but ==> SameTree(t.kids[j], e, p, q)
    ensures SettledKids(kids, t, e, q, but)
    decreases t, 0
  {
    forall j | 0 <= j < |t.kids| && j != but ensures Settled(kids[j], t.kids[j], e, q) {
      SettledFrame(kids[j], t.kids[j], e, p, q);
    }
  }

  lemma {:induction false} ActingFrame(l: Link, t: Tree, e: Pair, p: Pos, q: Pos, rest: seq<Down>, c: seq<Up>)
    requires Acting(l, t, e, p, rest, c) && SameTree(t, e, p, q)
    ensures Acting(l, t, e, q, rest, c)
    decreases t, 1
  {
    forall j | 0 <= j < |t.kids| ensures SameTree(t.kids[j], e, p, q) {
      Apart(t, e, j);
    }
    var pc := l.proc.pc;
    if pc.XFifo? { KidsFrame(l.proc.kids, t, e, p, q, -1); }
    else if pc.XJoin? { KidsFrame(l.proc.kids, t, e, p, q, if pc.j == 0 then -1 else pc.x.wait0); }
  }
}
