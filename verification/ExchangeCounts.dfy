/** Steps of an `exchange` in the subtrees that have not reported yet. */
module ExchangeCounts {
  import opened ServiceTree
  import opened ServiceMachine
  import opened ServiceMeasure
  import opened FifoSwap
  import opened ExchangeState
  import opened ExchangeActs

  // ---------- tallies along the search ----------

  lemma {:induction false} NamedMore(ts: seq<Tree>, n: Name, i: nat, m: nat)
    requires i <= m <= |ts|
    ensures NamedUpto(ts, n, i) <= NamedUpto(ts, n, m)
  {
    if i < m { NamedMore(ts, n, i, m - 1); }
  }

  lemma {:induction false} NamedAnd(ts: seq<Tree>, n: Name, i: nat, j: nat)
    requires i <= j < |ts|
    ensures NamedUpto(ts, n, i) + Named(ts[j], n) <= NamedUpto(ts, n, |ts|)
  {
    NamedMore(ts, n, i, j);
    NamedMore(ts, n, j + 1, |ts|);
  }

  lemma {:induction false} UptoMore(t: Tree, e: Pair, i: nat)
    requires i <= |t.kids|
    ensures Past(t, e.a, 0, i) <= Named(t, e.a) && Past(t, e.b, 0, i) <= Named(t, e.b)
  {
    NamedMore(t.kids, e.a, i, |t.kids|);
    NamedMore(t.kids, e.b, i, |t.kids|);
  }

  lemma {:induction false} UptoAnd(t: Tree, e: Pair, i: nat, j: nat)
    requires i <= j < |t.kids|
    ensures Past(t, e.a, 0, i) + Named(t.kids[j], e.a) <= Named(t, e.a)
    ensures Past(t, e.b, 0, i) + Named(t.kids[j], e.b) <= Named(t, e.b)
  {
    NamedAnd(t.kids, e.a, i, j);
    NamedAnd(t.kids, e.b, i, j);
  }

  lemma {:induction false} SumMore(ts: seq<Tree>, e: Pair, i: nat, m: nat)
    requires i <= m <= |ts|
    ensures HitsUpto(ts, e, i) <= HitsUpto(ts, e, m)
  {
    NamedMore(ts, e.a, i, m);
    NamedMore(ts, e.b, i, m);
  }

  lemma {:induction false} VisitsStay(ts: seq<Tree>, e: Pair, found: nat, m: nat)
    requires 0 < m <= |ts| && found + HitsUpto(ts, e, m - 1) >= 2
    ensures ExchangeVisitsUpto(ts, e, found, m) == ExchangeVisitsUpto(ts, e, found, m - 1)
  {
    var seen := ExchangeVisitsUpto(ts, e, found, m - 1);
    assert seen + [] == seen;
  }

  /** Once both services are counted, nobody else is asked. */
  lemma {:induction false} VisitsStop(ts: seq<Tree>, e: Pair, found: nat, i: nat, m: nat)
    requires i <= m <= |ts| && found + HitsUpto(ts, e, i) >= 2
    ensures ExchangeVisitsUpto(ts, e, found, m) == ExchangeVisitsUpto(ts, e, found, i)
    decreases m
  {
    if i < m {
      SumMore(ts, e, i, m - 1);
      VisitsStay(ts, e, found, m);
      VisitsStop(ts, e, found, i, m - 1);
    }
  }

  // ---------- the process itself ----------

  /** The search is about to go on with child i, or to report. */
  ghost predicate Looking(l: Link, t: Tree, e: Pair, ya: nat, yb: nat, p: Pos, rest: seq<Down>, seen: seq<Event>,
      x: Search, i: nat) {
    && l.down == rest && l.up == [] && l.proc.name == t.name && l.proc.secret == t.secret
    && FreshOwn(t, e, p) && ya + yb < 2 && Room(t, e, ya, yb)
    && i <= |t.kids| && Counted(x, t, e, ya, yb, i)
    && SettledUpto(l.proc.kids, t.kids, e, p, i) && FreshKids(l.proc.kids, t.kids, e, p, i)
    && Within(Past(t, e.a, ya, i), Past(t, e.b, yb, i), p) && seen == Announced(t, e, ya, yb, i)
    && l.proc.pc == SearchAt(i, |t.kids|, x)
  }

  ghost predicate AllPast(t: Tree, e: Pair, i: nat)
    requires i <= |t.kids|
  {
    Past(t, e.a, 0, i) == Named(t, e.a) && Past(t, e.b, 0, i) == Named(t, e.b)
  }

  /** Nothing is left to find below the children that have not been asked. */
  lemma {:induction false} AllFound(l: Link, t: Tree, e: Pair, ya: nat, yb: nat, p: Pos, rest: seq<Down>,
      seen: seq<Event>, x: Search, i: nat)
    requires Looking(l, t, e, ya, yb, p, rest, seen, x, i) && x.found + x.here >= 2
    ensures forall j :: i <= j < |t.kids| ==> Hits(t.kids[j], e) == 0
    ensures AllPast(t, e, i)
  {
    UptoMore(t, e, i);
    forall j | i <= j < |t.kids| ensures Hits(t.kids[j], e) == 0 { UptoAnd(t, e, i, j); }
  }

  lemma {:induction false} WaitsEnd(x: Search, t: Tree, e: Pair, ya: nat, yb: nat, i: nat)
    requires i <= |t.kids| && Counted(x, t, e, ya, yb, i) && AllPast(t, e, i)
    requires forall j :: i <= j < |t.kids| ==> Hits(t.kids[j], e) == 0
    ensures Counted(x, t, e, ya, yb, |t.kids|)
  {
  }

  lemma {:induction false} KidsEnd(kids: seq<Link>, t: Tree, e: Pair, p: Pos, i: nat)
    requires SettledUpto(kids, t.kids, e, p, i) && FreshKids(kids, t.kids, e, p, i)
    requires forall j :: i <= j < |t.kids| ==> Hits(t.kids[j], e) == 0
    ensures SettledKids(kids, t, e, p, -1)
  {
  }

  lemma {:induction false} EnterReport(l: Link, t: Tree, e: Pair, ya: nat, yb: nat, p: Pos, rest: seq<Down>,
      seen: seq<Event>, x: Search, i: nat)
    requires Looking(l, t, e, ya, yb, p, rest, seen, x, i) && !(i < |t.kids| && x.found + x.here < 2)
    requires forall j :: i <= j < |t.kids| ==> Hits(t.kids[j], e) == 0
    requires AllPast(t, e, i) && Announced(t, e, ya, yb, i) == ExchangeVisits(t, e, ya + yb)
    ensures Counting(l, t, e, ya, yb, p, rest, seen)
  {
    WaitsEnd(x, t, e, ya, yb, i);
    KidsEnd(l.proc.kids, t, e, p, i);
  }

  lemma {:induction false} EnterSearch(l: Link, t: Tree, e: Pair, ya: nat, yb: nat, p: Pos, rest: seq<Down>,
      seen: seq<Event>, x: Search, i: nat)
    requires Looking(l, t, e, ya, yb, p, rest, seen, x, i)
    ensures Counting(l, t, e, ya, yb, p, rest, seen)
  {
    if i < |t.kids| && x.found + x.here < 2 {
      EnterSend(l, t, e, ya, yb, p, rest, seen, x, i);
    } else {
      if i < |t.kids| { SearchStops(l, t, e, ya, yb, p, rest, seen, x, i); }
      EnterReport(l, t, e, ya, yb, p, rest, seen, x, i);
    }
  }

  lemma {:induction false} SearchStops(l: Link, t: Tree, e: Pair, ya: nat, yb: nat, p: Pos, rest: seq<Down>,
      seen: seq<Event>, x: Search, i: nat)
    requires Looking(l, t, e, ya, yb, p, rest, seen, x, i) && i < |t.kids| && x.found + x.here >= 2
    ensures forall j :: i <= j < |t.kids| ==> Hits(t.kids[j], e) == 0
    ensures AllPast(t, e, i) && Announced(t, e, ya, yb, i) == ExchangeVisits(t, e, ya + yb)
  {
    AllFound(l, t, e, ya, yb, p, rest, seen, x, i);
    VisitsStop(t.kids, e, ya + yb + OwnHits(t, e), i, |t.kids|);
  }

  lemma {:induction false} EnterSend(l: Link, t: Tree, e: Pair, ya: nat, yb: nat, p: Pos, rest: seq<Down>,
      seen: seq<Event>, x: Search, i: nat)
    requires Looking(l, t, e, ya, yb, p, rest, seen, x, i) && i < |t.kids| && x.found + x.here < 2
    ensures Counting(l, t, e, ya, yb, p, rest, seen)
  {
  }

  /** At most one of the two services has started when a process is told to count. */
  lemma {:induction false} NothingRead(e: Pair, ya: nat, yb: nat, p: Pos)
    requires ya + yb < 2 && Within(ya, yb, p) && Met(p)
    ensures Acquisitions(e, p) == []
  {
  }

  lemma {:induction false} FreshBelow(t: Tree, e: Pair, p: Pos)
    requires FreshTree(t, e, p)
    ensures FreshOwn(t, e, p) && FreshKids(Rest(t).kids, t.kids, e, p, 0)
  {
    forall j | 0 <= j < |t.kids| ensures FreshTree(t.kids[j], e, p) { Apart(t, e, j); }
  }

  lemma {:induction false} Started(l: Link, t: Tree, e: Pair, ya: nat, yb: nat, p: Pos, rest: seq<Down>, g: Fifos)
    requires l == Link([Line(Order(e, ya, yb))] + rest, [], Rest(t)) && ya + yb < 2 && e.a != e.b
    requires FreshTree(t, e, p) && Within(ya, yb, p) && Room(t, e, ya, yb)
    requires if t.name == MANAGER then ya == yb == 0 else rest == []
    ensures var m := StepNode(l, g);
            Counting(m.link, t, e, ya, yb, p, rest, m.ev) && m.fifos == g
                && m.ev == [Received(t.name, Exchange(e.a, e.b))]
  {
    var m := StepNode(l, g);
    var x := StartSearch(t.name, e.a, e.b, ya + yb);
    assert ([Line(Order(e, ya, yb))] + rest)[1..] == rest;
    FreshBelow(t, e, p);
    assert Announced(t, e, ya, yb, 0) == m.ev;
    assert m.link == Link(rest, [], Proc(t.name, t.secret, SearchAt(0, |t.kids|, x), Rest(t).kids));
    StartLooking(m.link, t, e, ya, yb, p, rest, m.ev, x);
    EnterSearch(m.link, t, e, ya, yb, p, rest, m.ev, x, 0);
  }

  lemma {:induction false} StartLooking(l: Link, t: Tree, e: Pair, ya: nat, yb: nat, p: Pos, rest: seq<Down>,
      seen: seq<Event>, x: Search)
    requires x == StartSearch(t.name, e.a, e.b, ya + yb)
    requires l == Link(rest, [], Proc(t.name, t.secret, SearchAt(0, |t.kids|, x), Rest(t).kids))
    requires ya + yb < 2 && e.a != e.b && Within(ya, yb, p) && Room(t, e, ya, yb)
    requires FreshOwn(t, e, p) && FreshKids(l.proc.kids, t.kids, e, p, 0) && seen == Announced(t, e, ya, yb, 0)
    ensures Looking(l, t, e, ya, yb, p, rest, seen, x, 0)
  {
  }

  lemma {:induction false} Sent(l: Link, t: Tree, e: Pair, ya: nat, yb: nat, p: Pos, rest: seq<Down>, seen: seq<Event>,
      g: Fifos)
    requires Counting(l, t, e, ya, yb, p, rest, seen) && l.proc.pc.XSend?
    ensures var m := StepNode(l, g); Counting(m.link, t, e, ya, yb, p, rest, seen) && m.fifos == g && m.ev == []
  {
    var i, x := l.proc.pc.i, l.proc.pc.x;
    var m := StepNode(l, g).link;
    var za, zb := Past(t, e.a, ya, i), Past(t, e.b, yb, i);
    assert za + zb == x.found + x.here;
    assert m.proc.kids[i] == Link([] + [Line(Order(e, za, zb))], [], Rest(t.kids[i]));
    assert seen[|Announced(t, e, ya, yb, i)|..] == [];
    assert Pending(m.proc.kids[i], t.kids[i], e, za, zb, p, [], []);
  }

  lemma {:induction false} ActingUnread(k: Link, t: Tree, e: Pair, p: Pos, c: seq<Up>)
    requires Acting(k, t, e, p, [], c)
    ensures k.up == c && Acting(Link(k.down, [], k.proc), t, e, p, [], [])
  {
  }

  lemma {:induction false} PostedUnread(k: Link, t: Tree, e: Pair, p: Pos, m: Up)
    requires Posted(k, t, e, p, [m])
    ensures k.up != [] && k.up[0] == m && Posted(Link(k.down, k.up[1..], k.proc), t, e, p, [])
  {
    if Acting(k, t, e, p, [], [m]) {
      ActingUnread(k, t, e, p, [m]);
    } else {
      assert k.up == [m] + [Byte(0)];
      assert k.up[1..] == [] + [Byte(0)];
    }
  }

  /** Reading the count of a subtree that has posted it. */
  lemma {:induction false} Unread(k: Link, t: Tree, e: Pair, ya: nat, yb: nat, p: Pos, seen: seq<Event>)
    requires Reported(k, t, e, ya, yb, p, seen)
    ensures k.up != [] && k.up[0] == Byte(Hits(t, e))
    ensures Settled(Link(k.down, k.up[1..], k.proc), t, e, p)
  {
    if Hits(t, e) > 0 { PostedUnread(k, t, e, p, Byte(Hits(t, e))); }
  }

  lemma {:induction false} UptoNext(t: Tree, e: Pair, ya: nat, yb: nat, i: nat)
    requires i < |t.kids| && Room(t, e, ya, yb)
    ensures (Past(t, e.a, ya, i + 1) <= 1 && Past(t, e.b, yb, i + 1) <= 1)
  {
    UptoAnd(t, e, i, i);
  }

  lemma {:induction false} WaitNext(x: Search, t: Tree, e: Pair, i: nat, m: nat)
    requires i < |t.kids| && Waits(x, t, e, i) && m == Hits(t.kids[i], e) <= 2
    requires x.here + m <= 2 && (x.here == 0 ==> x.wait0 == -1) && (x.here <= 1 ==> x.wait1 == -1)
    ensures Waits(Count(x, i, m), t, e, i + 1)
  {
  }

  lemma {:induction false} CountNext(x: Search, t: Tree, e: Pair, ya: nat, yb: nat, i: nat)
    requires i < |t.kids| && Counted(x, t, e, ya, yb, i) && x.found + x.here < 2 && Room(t, e, ya, yb)
    ensures Counted(Count(x, i, Hits(t.kids[i], e)), t, e, ya, yb, i + 1)
  {
    UptoNext(t, e, ya, yb, i);
    WaitNext(x, t, e, i, Hits(t.kids[i], e));
  }

  lemma {:induction false} Silent(k: Link, t: Tree, e: Pair, ya: nat, yb: nat, p: Pos, seen: seq<Event>)
    requires Pending(k, t, e, ya, yb, p, [], seen)
    ensures k.up == []
  {
  }

  lemma {:induction false} KidCounted(kids: seq<Link>, ts: seq<Tree>, e: Pair, p: Pos, i: nat, k: Link)
    requires i < |ts| && SettledUpto(kids, ts, e, p, i) && FreshKids(kids, ts, e, p, i + 1) && Settled(k, ts[i], e, p)
    ensures SettledUpto(kids[i := k], ts, e, p, i + 1) && FreshKids(kids[i := k], ts, e, p, i + 1)
  {
  }

  lemma {:induction false} AnnouncedNext(t: Tree, e: Pair, ya: nat, yb: nat, i: nat)
    requires i < |t.kids| && Past(t, e.a, ya, i) + Past(t, e.b, yb, i) < 2
    ensures Announced(t, e, ya, yb, i + 1)
         == Announced(t, e, ya, yb, i) + ExchangeVisits(t.kids[i], e, Past(t, e.a, ya, i) + Past(t, e.b, yb, i))
  {
  }

  lemma {:induction false} HeardLooking(l: Link, t: Tree, e: Pair, ya: nat, yb: nat, p: Pos, rest: seq<Down>,
      seen: seq<Event>)
    requires Counting(l, t, e, ya, yb, p, rest, seen) && l.proc.pc.XAwait? && Room(t, e, ya, yb)
    requires var i, k, n := l.proc.pc.i, l.proc.kids[l.proc.pc.i], |Announced(t, e, ya, yb, l.proc.pc.i)|;
             k.up != [] && Reported(k, t.kids[i], e, Past(t, e.a, ya, i), Past(t, e.b, yb, i), p, seen[n..])
    ensures var i := l.proc.pc.i;
            var x := Count(l.proc.pc.x, i, Hits(t.kids[i], e));
            Looking(Hear(l, i, SearchAt(i + 1, |t.kids|, x)), t, e, ya, yb, p, rest, seen, x, i + 1)
  {
    var i, x, k := l.proc.pc.i, l.proc.pc.x, l.proc.kids[l.proc.pc.i];
    var n := |Announced(t, e, ya, yb, i)|;
    Unread(k, t.kids[i], e, Past(t, e.a, ya, i), Past(t, e.b, yb, i), p, seen[n..]);
    UptoNext(t, e, ya, yb, i);
    CountNext(x, t, e, ya, yb, i);
    KidCounted(l.proc.kids, t.kids, e, p, i, Link(k.down, k.up[1..], k.proc));
    AnnouncedNext(t, e, ya, yb, i);
    assert seen == seen[..n] + seen[n..];
  }

  lemma {:induction false} CountArrives(l: Link, t: Tree, e: Pair, ya: nat, yb: nat, p: Pos, rest: seq<Down>,
      seen: seq<Event>, g: Fifos)
    requires Counting(l, t, e, ya, yb, p, rest, seen) && l.proc.pc.XAwait? && StepNode(l, g).Moved?
    ensures var i, k, n := l.proc.pc.i, l.proc.kids[l.proc.pc.i], |Announced(t, e, ya, yb, l.proc.pc.i)|;
            && k.up != [] && Reported(k, t.kids[i], e, Past(t, e.a, ya, i), Past(t, e.b, yb, i), p, seen[n..])
            && StepNode(l, g) == Moved(Hear(l, i, SearchAt(i + 1, |t.kids|, Count(l.proc.pc.x, i, Hits(t.kids[i], e)))),
                g, [])
  {
    var i := l.proc.pc.i;
    var k := l.proc.kids[i];
    var sub, za, zb := seen[|Announced(t, e, ya, yb, i)|..], Past(t, e.a, ya, i), Past(t, e.b, yb, i);
    if Pending(k, t.kids[i], e, za, zb, p, [], sub) { Silent(k, t.kids[i], e, za, zb, p, sub); }
    Unread(k, t.kids[i], e, za, zb, p, sub);
  }

  lemma {:induction false} Heard(l: Link, t: Tree, e: Pair, ya: nat, yb: nat, p: Pos, rest: seq<Down>, seen: seq<Event>,
      g: Fifos)
    requires Counting(l, t, e, ya, yb, p, rest, seen) && l.proc.pc.XAwait? && Room(t, e, ya, yb)
    requires StepNode(l, g).Moved?
    ensures var m := StepNode(l, g); Counting(m.link, t, e, ya, yb, p, rest, seen) && m.fifos == g && m.ev == []
  {
    var i := l.proc.pc.i;
    CountArrives(l, t, e, ya, yb, p, rest, seen, g);
    HeardLooking(l, t, e, ya, yb, p, rest, seen);
    EnterSearch(StepNode(l, g).link, t, e, ya, yb, p, rest, seen, Count(l.proc.pc.x, i, Hits(t.kids[i], e)), i + 1);
  }

  // ---------- the report ----------

  /** A process that is about to report. */
  ghost predicate Reporting(l: Link, t: Tree, e: Pair, ya: nat, yb: nat, p: Pos, rest: seq<Down>, seen: seq<Event>) {
    Counting(l, t, e, ya, yb, p, rest, seen) && l.proc.pc.XReport?
  }

  lemma {:induction false} NothingBelow(kids: seq<Link>, t: Tree, e: Pair, p: Pos)
    requires SettledKids(kids, t, e, p, -1) && Hits(t, e) == 0
    ensures kids == Rest(t).kids
  {
    forall j | 0 <= j < |t.kids| ensures kids[j] == Quiet(t.kids[j]) {
      Apart(t, e, j);
      assert Settled(kids[j], t.kids[j], e, p);
    }
  }

  /** Once it has reported, a process with targets is acting; any other is at rest. */
  lemma {:induction false} AfterReport(l: Link, m: Link, t: Tree, e: Pair, ya: nat, yb: nat, p: Pos, rest: seq<Down>,
      seen: seq<Event>, c: seq<Up>)
    requires Reporting(l, t, e, ya, yb, p, rest, seen) && e.a != e.b
    requires var x := l.proc.pc.x;
             m == Link(l.down, c, Proc(t.name, t.secret,
                    if x.here == 0 then Ready else if t.name == e.a || t.name == e.b then XFifo(0, x, 0)
                        else JoinAt(0, x),
                    l.proc.kids))
    ensures if Hits(t, e) == 0 then m == Link(rest, c, Rest(t)) else Acting(m, t, e, p, rest, c)
  {
    var x := l.proc.pc.x;
    if Hits(t, e) == 0 { NothingBelow(l.proc.kids, t, e, p); }
    else if t.name != e.a && t.name != e.b { EnterJoin(m, t, e, p, rest, c, x, 0); }
  }

  lemma {:induction false} Report(l: Link, t: Tree, e: Pair, ya: nat, yb: nat, p: Pos, seen: seq<Event>, g: Fifos)
    requires Reporting(l, t, e, ya, yb, p, [], seen) && e.a != e.b && t.name != MANAGER
    ensures var m := StepNode(l, g); Reported(m.link, t, e, ya, yb, p, seen) && m.fifos == g && m.ev == []
  {
    var m := StepNode(l, g).link;
    assert l.proc.pc.x.here == Hits(t, e);
    assert m.up == [Byte(Hits(t, e))];
    AfterReport(l, m, t, e, ya, yb, p, [], seen, [Byte(Hits(t, e))]);
  }

  /** The Manager's end of the count: it complains if it has not found both. */
  lemma {:induction false} ManagerReport(l: Link, t: Tree, e: Pair, p: Pos, rest: seq<Down>, seen: seq<Event>, g: Fifos)
    requires Reporting(l, t, e, 0, 0, p, rest, seen) && e.a != e.b && t.name == MANAGER
    ensures var m := StepNode(l, g);
            && (if Hits(t, e) == 0 then m.link == Link(rest, [], Rest(t)) else Acting(m.link, t, e, p, rest, []))
            && m.fifos == g && m.ev == if Hits(t, e) < 2 then [Missing(e.a, e.b)] else []
  {
    AfterReport(l, StepNode(l, g).link, t, e, 0, 0, p, rest, seen, []);
  }

  lemma {:induction false} CountCost(l: Link, t: Tree, e: Pair, ya: nat, yb: nat, p: Pos, rest: seq<Down>,
      seen: seq<Event>, g: Fifos)
    requires Pending(l, t, e, ya, yb, p, rest, seen) && StepNode(l, g).Moved?
    ensures Work(StepNode(l, g).link) < Pot(l)
  {
    NodeCosts(l, g);
  }

  // ---------- steps anywhere below ----------

  /** Nobody outside y and t has moved between p and q. */
  ghost predicate Grows(ya: nat, yb: nat, p: Pos, q: Pos) {
    (q.a > 0 ==> p.a > 0 || ya > 0) && (q.b > 0 ==> p.b > 0 || yb > 0)
  }

  lemma {:induction false} UptoFrame(kids: seq<Link>, t: Tree, e: Pair, p: Pos, q: Pos, i: nat)
    requires SettledUpto(kids, t.kids, e, p, i)
    requires forall j :: 0 <= j < i ==> SameTree(t.kids[j], e, p, q)
    ensures SettledUpto(kids, t.kids, e, q, i)
  {
    forall j | 0 <= j < i ensures Settled(kids[j], t.kids[j], e, q) {
      SettledFrame(kids[j], t.kids[j], e, p, q);
    }
  }

  lemma {:induction false} SameBelow(t: Tree, e: Pair, p: Pos, q: Pos)
    requires SameTree(t, e, p, q)
    ensures Same(Self(t, e.a), Self(t, e.b), p, q)
    ensures forall j :: 0 <= j < |t.kids| ==> SameTree(t.kids[j], e, p, q)
  {
    forall j | 0 <= j < |t.kids| ensures SameTree(t.kids[j], e, p, q) { Apart(t, e, j); }
  }

  lemma {:induction false} ReportedFrame(k: Link, t: Tree, e: Pair, ya: nat, yb: nat, p: Pos, q: Pos, seen: seq<Event>)
    requires Reported(k, t, e, ya, yb, p, seen) && SameTree(t, e, p, q) && Grows(ya, yb, p, q)
    ensures Reported(k, t, e, ya, yb, q, seen)
  {
    if Hits(t, e) > 0 { PostedFrame(k, t, e, p, q, [Byte(Hits(t, e))]); }
  }

  /** A step elsewhere does not disturb a subtree that has not reported. */
  lemma {:induction false} PendingFrame(l: Link, t: Tree, e: Pair, ya: nat, yb: nat, p: Pos, q: Pos, rest: seq<Down>,
      seen: seq<Event>)
    requires Pending(l, t, e, ya, yb, p, rest, seen) && SameTree(t, e, p, q) && Grows(ya, yb, p, q)
    ensures Pending(l, t, e, ya, yb, q, rest, seen)
    decreases t, 1
  {
    if Counting(l, t, e, ya, yb, p, rest, seen) { CountingFrame(l, t, e, ya, yb, p, q, rest, seen); }
  }

  lemma {:induction false} CountingFrame(l: Link, t: Tree, e: Pair, ya: nat, yb: nat, p: Pos, q: Pos, rest: seq<Down>,
      seen: seq<Event>)
    requires Counting(l, t, e, ya, yb, p, rest, seen) && SameTree(t, e, p, q) && Grows(ya, yb, p, q)
    ensures Counting(l, t, e, ya, yb, q, rest, seen)
    decreases t, 0
  {
    SameBelow(t, e, p, q);
    var pc := l.proc.pc;
    if pc.XSend? { UptoFrame(l.proc.kids, t, e, p, q, pc.i); }
    else if pc.XReport? { KidsFrame(l.proc.kids, t, e, p, q, -1); }
    else {
      UptoFrame(l.proc.kids, t, e, p, q, pc.i);
      AskedFrame(l.proc.kids[pc.i], t.kids[pc.i], e, Past(t, e.a, ya, pc.i), Past(t, e.b, yb, pc.i), p, q,
                 seen[|Announced(t, e, ya, yb, pc.i)|..]);
    }
  }

  /** The child that has been asked, before or after it has reported. */
  lemma {:induction false} AskedFrame(k: Link, t: Tree, e: Pair, ya: nat, yb: nat, p: Pos, q: Pos, seen: seq<Event>)
    requires Pending(k, t, e, ya, yb, p, [], seen) || Reported(k, t, e, ya, yb, p, seen)
    requires SameTree(t, e, p, q) && Grows(ya, yb, p, q)
    ensures Pending(k, t, e, ya, yb, q, [], seen) || Reported(k, t, e, ya, yb, q, seen)
    decreases t, 2
  {
    if Reported(k, t, e, ya, yb, p, seen) { ReportedFrame(k, t, e, ya, yb, p, q, seen); }
    else { PendingFrame(k, t, e, ya, yb, p, q, [], seen); }
  }

  /** Only child i has moved: the others stand where they stood. */
  lemma {:induction false} OthersSame(t: Tree, e: Pair, p: Pos, q: Pos, i: nat)
    requires Room(t, e, 0, 0) && i < |t.kids| && MovesTree(t.kids[i], e, p, q)
    ensures forall j :: 0 <= j < |t.kids| && j != i ==> SameTree(t.kids[j], e, p, q)
    ensures Same(Self(t, e.a), Self(t, e.b), p, q)
    ensures MovesTree(t, e, p, q)
  {
    Apart(t, e, i);
  }

  lemma {:induction false} PastGrows(t: Tree, e: Pair, ya: nat, yb: nat, p: Pos, q: Pos, j: nat, i: nat)
    requires j < i <= |t.kids| && MovesTree(t.kids[j], e, p, q)
    ensures Grows(Past(t, e.a, ya, i), Past(t, e.b, yb, i), p, q)
  {
    NamedOne(t.kids, e.a, j, i);
    NamedOne(t.kids, e.b, j, i);
  }

  lemma {:induction false} FreshFrame(kids: seq<Link>, ts: seq<Tree>, e: Pair, p: Pos, q: Pos, i: nat)
    requires FreshKids(kids, ts, e, p, i) && forall j :: i <= j < |ts| ==> SameTree(ts[j], e, p, q)
    ensures FreshKids(kids, ts, e, q, i)
  {
  }

  /** A child that has been counted moves on. */
  lemma {:induction false} CountedMoves(l: Link, t: Tree, e: Pair, ya: nat, yb: nat, p: Pos, q: Pos,
      rest: seq<Down>, seen: seq<Event>, j: nat, k: Link)
    requires Counting(l, t, e, ya, yb, p, rest, seen) && Fit(t, e) && j < |t.kids|
    requires MovesTree(t.kids[j], e, p, q) && Settled(k, t.kids[j], e, q)
    requires !l.proc.pc.XReport? ==> j < l.proc.pc.i
    ensures Counting(SetKid(l, j, k), t, e, ya, yb, q, rest, seen)
  {
    OthersSame(t, e, p, q, j);
    var kids, pc := l.proc.kids, l.proc.pc;
    if pc.XReport? {
      PastGrows(t, e, ya, yb, p, q, j, |t.kids|);
      KidsMove(kids, t, e, p, q, -1, j, k);
    } else {
      PastGrows(t, e, ya, yb, p, q, j, pc.i);
      UptoMoves(kids, t, e, p, q, pc.i, j, k);
      if pc.XSend? {
        FreshFrame(kids[j := k], t.kids, e, p, q, pc.i);
      } else {
        FreshFrame(kids[j := k], t.kids, e, p, q, pc.i + 1);
        AskedFrame(kids[pc.i], t.kids[pc.i], e, Past(t, e.a, ya, pc.i), Past(t, e.b, yb, pc.i), p, q,
                   seen[|Announced(t, e, ya, yb, pc.i)|..]);
      }
    }
  }

  lemma {:induction false} UptoMoves(kids: seq<Link>, t: Tree, e: Pair, p: Pos, q: Pos, i: nat, j: nat, k: Link)
    requires SettledUpto(kids, t.kids, e, p, i) && j < i && Settled(k, t.kids[j], e, q)
    requires forall m :: 0 <= m < |t.kids| && m != j ==> SameTree(t.kids[m], e, p, q)
    ensures SettledUpto(kids[j := k], t.kids, e, q, i)
  {
    forall m | 0 <= m < i ensures Settled(kids[j := k][m], t.kids[m], e, q) {
      if m != j { SettledFrame(kids[m], t.kids[m], e, p, q); }
    }
  }

  /** The child that has been asked moves on. */
  lemma {:induction false} AskedMoves(l: Link, t: Tree, e: Pair, ya: nat, yb: nat, p: Pos, q: Pos,
      rest: seq<Down>, seen: seq<Event>, v: seq<Event>, k: Link)
    requires Counting(l, t, e, ya, yb, p, rest, seen) && Fit(t, e) && l.proc.pc.XAwait?
    requires var i := l.proc.pc.i;
             var sub, za, zb := seen[|Announced(t, e, ya, yb, i)|..] + v, Past(t, e.a, ya, i), Past(t, e.b, yb, i);
             && MovesTree(t.kids[i], e, p, q)
             && (Pending(k, t.kids[i], e, za, zb, q, [], sub) || Reported(k, t.kids[i], e, za, zb, q, sub))
    ensures Counting(SetKid(l, l.proc.pc.i, k), t, e, ya, yb, q, rest, seen + v)
  {
    var i := l.proc.pc.i;
    OthersSame(t, e, p, q, i);
    UptoFrame(l.proc.kids, t, e, p, q, i);
    assert SettledUpto(l.proc.kids[i := k], t.kids, e, q, i);
    FreshFrame(l.proc.kids[i := k], t.kids, e, p, q, i + 1);
    var n := |Announced(t, e, ya, yb, i)|;
    assert (seen + v)[n..] == seen[n..] + v;
  }

  /** What one step does to a subtree that has not reported, unless it is the Manager's report: it
      prints either what the two services acquired or one more "has received". */
  ghost predicate Stepped(l: Link, m: Move, t: Tree, e: Pair, ya: nat, yb: nat, p: Pos, q: Pos, rest: seq<Down>,
      seen: seq<Event>, v: seq<Event>) {
    && m.Moved? && Goes(p, q) && MovesTree(t, e, p, q) && m.fifos == Files(e, q) && m.ev == Gained(e, p, q) + v
    && (v != [] ==> q == p && Acquisitions(e, p) == [])
    && (Counting(m.link, t, e, ya, yb, q, rest, seen + v)
        || (rest == [] && t.name != MANAGER && Reported(m.link, t, e, ya, yb, q, seen + v)))
    && Work(m.link) < Pot(l)
  }

  lemma {:induction false} ReadyStep(l: Link, t: Tree, e: Pair, ya: nat, yb: nat, p: Pos, rest: seq<Down>,
      seen: seq<Event>)
    requires Pending(l, t, e, ya, yb, p, rest, seen) && Fit(t, e) && Met(p) && Room(t, e, ya, yb) && l.proc.pc == Ready
    requires if t.name == MANAGER then ya == yb == 0 else rest == []
    requires StepNode(l, Files(e, p)).Moved?
    ensures Stepped(l, StepNode(l, Files(e, p)), t, e, ya, yb, p, p, rest, seen, [Received(t.name, Exchange(e.a, e.b))])
  {
    var g := Files(e, p);
    CountCost(l, t, e, ya, yb, p, rest, seen, g);
    Started(l, t, e, ya, yb, p, rest, g);
    NothingRead(e, ya, yb, p);
  }

  lemma {:induction false} NodeStep(l: Link, t: Tree, e: Pair, ya: nat, yb: nat, p: Pos, rest: seq<Down>,
      seen: seq<Event>) returns (v: seq<Event>)
    requires Pending(l, t, e, ya, yb, p, rest, seen) && Fit(t, e) && Met(p) && Room(t, e, ya, yb)
    requires if t.name == MANAGER then ya == yb == 0 && !l.proc.pc.XReport? else rest == []
    requires StepNode(l, Files(e, p)).Moved?
    ensures Stepped(l, StepNode(l, Files(e, p)), t, e, ya, yb, p, p, rest, seen, v)
  {
    if l.proc.pc == Ready {
      v := [Received(t.name, Exchange(e.a, e.b))];
      ReadyStep(l, t, e, ya, yb, p, rest, seen);
    } else {
      v := [];
      assert seen + [] == seen;
      var g, pc := Files(e, p), l.proc.pc;
      CountCost(l, t, e, ya, yb, p, rest, seen, g);
      if pc.XSend? { Sent(l, t, e, ya, yb, p, rest, seen, g); }
      else if pc.XAwait? { Heard(l, t, e, ya, yb, p, rest, seen, g); }
      else { Report(l, t, e, ya, yb, p, seen, g); }
    }
  }

  lemma {:induction false} CountedStep(l: Link, t: Tree, e: Pair, ya: nat, yb: nat, p: Pos, rest: seq<Down>,
      seen: seq<Event>, path: seq<nat>)
    returns (q: Pos)
    requires Counting(l, t, e, ya, yb, p, rest, seen) && Fit(t, e) && Met(p)
    requires path != [] && path[0] < |t.kids| && (!l.proc.pc.XReport? ==> path[0] < l.proc.pc.i)
    requires StepAt(l, Files(e, p), path).Moved?
    ensures Stepped(l, StepAt(l, Files(e, p), path), t, e, ya, yb, p, q, rest, seen, [])
  {
    var j := path[0];
    var k := l.proc.kids[j];
    assert Settled(k, t.kids[j], e, p);
    if Hits(t.kids[j], e) == 0 { QuietStuck([], t.kids[j], Files(e, p), path[1..]); }
    FitKid(t, e, j);
    q := PostedStep(k, t.kids[j], e, p, [], path[1..]);
    var m := StepAt(k, Files(e, p), path[1..]).link;
    CountedMoves(l, t, e, ya, yb, p, q, rest, seen, j, m);
    OthersSame(t, e, p, q, j);
    KidCosts(l, j, m);
    assert seen + [] == seen;
  }

  lemma {:induction false} ReportedStep(k: Link, t: Tree, e: Pair, ya: nat, yb: nat, p: Pos, seen: seq<Event>,
      path: seq<nat>) returns (q: Pos)
    requires Reported(k, t, e, ya, yb, p, seen) && Fit(t, e) && Met(p) && t.name != MANAGER
    requires StepAt(k, Files(e, p), path).Moved?
    ensures Stepped(k, StepAt(k, Files(e, p), path), t, e, ya, yb, p, q, [], seen, [])
    ensures Pot(StepAt(k, Files(e, p), path).link) < Pot(k)
  {
    var c := [Byte(Hits(t, e))];
    if Hits(t, e) == 0 { QuietStuck(c, t, Files(e, p), path); }
    q := PostedStep(k, t, e, p, c, path);
    assert seen + [] == seen;
  }

  lemma {:induction false} Unready(k: Link, t: Tree, e: Pair, ya: nat, yb: nat, p: Pos, seen: seq<Event>)
    requires Counting(k, t, e, ya, yb, p, [], seen) || Reported(k, t, e, ya, yb, p, seen)
    ensures MsgPot(k) == 0
  {
    if Reported(k, t, e, ya, yb, p, seen) && Hits(t, e) > 0 {
      PostedDown(k, t, e, p, [Byte(Hits(t, e))]);
    }
  }

  lemma {:induction false} PostedDown(k: Link, t: Tree, e: Pair, p: Pos, c: seq<Up>)
    requires Posted(k, t, e, p, c)
    ensures k.down == []
  {
    if Acting(k, t, e, p, [], c) { ActingUnread(k, t, e, p, c); }
  }

  lemma {:induction false} AskedStep(l: Link, t: Tree, e: Pair, ya: nat, yb: nat, p: Pos, rest: seq<Down>,
      seen: seq<Event>, path: seq<nat>)
    returns (q: Pos, v: seq<Event>)
    requires Counting(l, t, e, ya, yb, p, rest, seen) && Fit(t, e) && Met(p) && Room(t, e, ya, yb)
    requires path != [] && l.proc.pc.XAwait? && path[0] == l.proc.pc.i && StepAt(l, Files(e, p), path).Moved?
    ensures Stepped(l, StepAt(l, Files(e, p), path), t, e, ya, yb, p, q, rest, seen, v)
    decreases path, 0
  {
    var i := path[0];
    var k := l.proc.kids[i];
    var sub, za, zb := seen[|Announced(t, e, ya, yb, i)|..], Past(t, e.a, ya, i), Past(t, e.b, yb, i);
    FitKid(t, e, i);
    UptoNext(t, e, ya, yb, i);
    v := [];
    if Reported(k, t.kids[i], e, za, zb, p, sub) {
      q := ReportedStep(k, t.kids[i], e, za, zb, p, sub, path[1..]);
    } else {
      q, v := PendingStep(k, t.kids[i], e, za, zb, p, [], sub, path[1..]);
    }
    var m := StepAt(k, Files(e, p), path[1..]).link;
    Unready(m, t.kids[i], e, za, zb, q, sub + v);
    AskedMoves(l, t, e, ya, yb, p, q, rest, seen, v, m);
    OthersSame(t, e, p, q, i);
    KidCosts(l, i, m);
  }

  lemma {:induction false} FreshStuck(l: Link, ts: seq<Tree>, e: Pair, p: Pos, i: nat, g: Fifos, path: seq<nat>)
    requires FreshKids(l.proc.kids, ts, e, p, i) && path != [] && path[0] >= i
    ensures StepAt(l, g, path) == Blocked
  {
    if path[0] < |ts| { QuietStuck([], ts[path[0]], g, path[1..]); }
  }

  /** Any step of a subtree that has not reported, except the Manager's report. */
  lemma {:induction false} PendingStep(l: Link, t: Tree, e: Pair, ya: nat, yb: nat, p: Pos, rest: seq<Down>,
      seen: seq<Event>, path: seq<nat>)
    returns (q: Pos, v: seq<Event>)
    requires Pending(l, t, e, ya, yb, p, rest, seen) && Fit(t, e) && Met(p) && Room(t, e, ya, yb)
    requires if t.name == MANAGER then ya == yb == 0 && !(path == [] && l.proc.pc.XReport?) else rest == []
    requires StepAt(l, Files(e, p), path).Moved?
    ensures Stepped(l, StepAt(l, Files(e, p), path), t, e, ya, yb, p, q, rest, seen, v)
    decreases path, 1
  {
    q, v := p, [];
    var pc := l.proc.pc;
    if path == [] {
      v := NodeStep(l, t, e, ya, yb, p, rest, seen);
    } else if pc == Ready {
      StillStuck(l, t.kids, -1, Files(e, p), path);
    } else if pc.XReport? || path[0] < pc.i {
      q := CountedStep(l, t, e, ya, yb, p, rest, seen, path);
    } else if pc.XAwait? && path[0] == pc.i {
      q, v := AskedStep(l, t, e, ya, yb, p, rest, seen, path);
    } else {
      FreshStuck(l, t.kids, e, p, if pc.XSend? then pc.i else pc.i + 1, Files(e, p), path);
    }
  }

  /** While the count goes on, the process that is at it can move. */
  lemma {:induction false} Progress(l: Link, t: Tree, e: Pair, ya: nat, yb: nat, p: Pos, rest: seq<Down>,
      seen: seq<Event>, g: Fifos)
    returns (path: seq<nat>)
    requires Pending(l, t, e, ya, yb, p, rest, seen) && Plain(t.kids) && (t.name != MANAGER ==> rest == [])
    ensures StepAt(l, g, path).Moved?
    decreases t
  {
    path := [];
    var pc := l.proc.pc;
    if pc.XAwait? {
      var i := pc.i;
      var sub, za, zb := seen[|Announced(t, e, ya, yb, i)|..], Past(t, e.a, ya, i), Past(t, e.b, yb, i);
      if Reported(l.proc.kids[i], t.kids[i], e, za, zb, p, sub) {
        Unread(l.proc.kids[i], t.kids[i], e, za, zb, p, sub);
      } else {
        var deep := Progress(l.proc.kids[i], t.kids[i], e, za, zb, p, [], sub, g);
        path := [i] + deep;
        assert path[1..] == deep;
      }
    }
  }

  // ---------- what never happens ----------

  lemma {:induction false} ReportedTidy(k: Link, t: Tree, e: Pair, ya: nat, yb: nat, p: Pos, seen: seq<Event>)
    requires Reported(k, t, e, ya, yb, p, seen)
    ensures k.down == [] && Tidy(k.proc)
  {
    if Hits(t, e) == 0 { RestTidy(t); } else { PostedTidy(k, t, e, p, [Byte(Hits(t, e))]); }
  }

  lemma {:induction false} PendingTidy(l: Link, t: Tree, e: Pair, ya: nat, yb: nat, p: Pos, rest: seq<Down>,
      seen: seq<Event>)
    requires Pending(l, t, e, ya, yb, p, rest, seen)
    ensures Tidy(l.proc) && (rest == [] ==> |l.down| <= 1)
    decreases t
  {
    RestTidy(t);
    var pc := l.proc.pc;
    if pc != Ready {
      forall i | 0 <= i < |t.kids| ensures |l.proc.kids[i].down| <= 1 && Tidy(l.proc.kids[i].proc) {
        var k := l.proc.kids[i];
        if pc.XAwait? && i == pc.i {
          var sub, za, zb := seen[|Announced(t, e, ya, yb, i)|..], Past(t, e.a, ya, i), Past(t, e.b, yb, i);
          if Reported(k, t.kids[i], e, za, zb, p, sub) { ReportedTidy(k, t.kids[i], e, za, zb, p, sub); }
          else { PendingTidy(k, t.kids[i], e, za, zb, p, [], sub); }
        } else if pc.XReport? || i < pc.i {
          assert Settled(k, t.kids[i], e, p);
          SettledTidy(k, t.kids[i], e, p);
        } else {
          RestTidy(t.kids[i]);
        }
      }
    }
  }

  lemma {:induction false} PendingReady(l: Link, t: Tree, e: Pair, ya: nat, yb: nat, p: Pos, rest: seq<Down>,
      seen: seq<Event>)
    requires Pending(l, t, e, ya, yb, p, rest, seen) && l.proc.pc == Ready
    ensures l == Link([Line(Order(e, ya, yb))] + rest, [], Rest(t)) && seen == [] && Within(ya, yb, p)
  {
  }
}
