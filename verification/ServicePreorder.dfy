/** What the tree operations do to the preorder listing of the services. */
module ServicePreorder {
  import opened ServiceTree
  import K = KillRefines
  import S = SpawnRefines

  datatype Entry = Entry(name: Name, secret: nat)

  ghost function Walk(t: Tree): (w: seq<Entry>)
    ensures w != [] && w[0] == Entry(t.name, t.secret)
    decreases t, 1
  {
    [Entry(t.name, t.secret)] + WalkAll(t.kids)
  }

  ghost function WalkAll(ts: seq<Tree>): seq<Entry>
    decreases ts, 0
  {
    if ts == [] then [] else Walk(ts[0]) + WalkAll(ts[1..])
  }

  lemma {:induction false} WalkSize(t: Tree)
    ensures |Walk(t)| == Size(t)
    decreases t, 1
  {
    WalkAllSize(t.kids);
  }

  lemma {:induction false} WalkAllSize(ts: seq<Tree>)
    ensures |WalkAll(ts)| == SizeAll(ts)
    decreases ts, 0
  {
    if ts != [] {
      WalkSize(ts[0]);
      WalkAllSize(ts[1..]);
    }
  }

  /** No entry of w has name n. */
  ghost predicate Free(w: seq<Entry>, n: Name) {
    forall j :: 0 <= j < |w| ==> w[j].name != n
  }

  lemma {:induction false} HasFree(t: Tree, n: Name)
    ensures Has(t, n) <==> !Free(Walk(t), n)
    decreases t, 1
  {
    HasFreeAny(t.kids, n);
    var w := WalkAll(t.kids);
    if !Free(w, n) {
      var j :| 0 <= j < |w| && w[j].name == n;
      assert Walk(t)[j + 1].name == n;
    }
    if t.name != n && Free(w, n) {
      forall j | 0 <= j < |Walk(t)| ensures Walk(t)[j].name != n { assert j > 0 ==> Walk(t)[j] == w[j - 1]; }
    }
  }

  lemma {:induction false} HasFreeAny(ts: seq<Tree>, n: Name)
    ensures HasAny(ts, n) <==> !Free(WalkAll(ts), n)
    decreases ts, 0
  {
    if ts != [] {
      HasFree(ts[0], n);
      HasFreeAny(ts[1..], n);
      var x, y := Walk(ts[0]), WalkAll(ts[1..]);
      FreeConcat(x, y, n);
      if HasAny(ts[1..], n) {
        var i :| 0 <= i < |ts[1..]| && Has(ts[1..][i], n);
        assert Has(ts[i + 1], n);
      }
      if HasAny(ts, n) && !Has(ts[0], n) {
        var i :| 0 <= i < |ts| && Has(ts[i], n);
        assert Has(ts[1..][i - 1], n);
      }
    }
  }

  lemma FreeConcat(x: seq<Entry>, y: seq<Entry>, n: Name)
    ensures Free(x + y, n) <==> Free(x, n) && Free(y, n)
  {
    if !Free(x, n) { var j :| 0 <= j < |x| && x[j].name == n; assert (x + y)[j].name == n; }
    if !Free(y, n) { var j :| 0 <= j < |y| && y[j].name == n; assert (x + y)[|x| + j].name == n; }
  }

  // ---------- kill ----------

  /** w' is w without the slice v at position k, which starts with the first entry called n. */
  ghost predicate Cut(w: seq<Entry>, w': seq<Entry>, v: seq<Entry>, n: Name, k: nat) {
    && k + |v| <= |w| && v != []
    && w[k..k + |v|] == v && v[0].name == n && Free(w[..k], n)
    && w' == w[..k] + w[k + |v|..]
  }

  lemma {:induction false} CutAfter(x: seq<Entry>, w: seq<Entry>, w': seq<Entry>, v: seq<Entry>, n: Name, k: nat)
    requires Cut(w, w', v, n, k) && Free(x, n)
    ensures Cut(x + w, x + w', v, n, |x| + k)
  {
    assert (x + w)[|x| + k..|x| + k + |v|] == w[k..k + |v|];
    assert (x + w)[..|x| + k] == x + w[..k];
    FreeConcat(x, w[..k], n);
    assert (x + w)[|x| + k + |v|..] == w[k + |v|..];
  }

  lemma {:induction false} CutBefore(y: seq<Entry>, w: seq<Entry>, w': seq<Entry>, v: seq<Entry>, n: Name, k: nat)
    requires Cut(w, w', v, n, k)
    ensures Cut(w + y, w' + y, v, n, k)
  {
    assert (w + y)[k..k + |v|] == w[k..k + |v|];
    assert (w + y)[..k] == w[..k];
    assert (w + y)[k + |v|..] == w[k + |v|..] + y;
  }

  lemma {:induction false} CutFirst(x: seq<Entry>, y: seq<Entry>, n: Name)
    requires x != [] && x[0].name == n
    ensures Cut(x + y, y, x, n, 0)
  {
    assert (x + y)[..0] == [] && (x + y)[0..|x|] == x && (x + y)[|x|..] == y;
  }

  /** Killing a service below the top cuts one contiguous slice out of the preorder: the first
      service of that name with its whole subtree. The reported count is the length of the slice
      less one, as an unsigned char holds it. */
  lemma {:induction false} KillCuts(t: Tree, n: Name) returns (k: nat)
    requires t.name != n && Has(t, n)
    ensures Cut(Walk(t), Walk(Remove(t, n)), Walk(Victim(t, n)), n, k)
    ensures Toll(t, n) == (|Walk(Victim(t, n))| - 1) % 256
    ensures |Walk(Remove(t, n))| == |Walk(t)| - |Walk(Victim(t, n))|
    decreases t, 1
  {
    var top := [Entry(t.name, t.secret)];
    k := KillCutsAny(t.kids, n);
    CutAfter(top, WalkAll(t.kids), WalkAll(RemoveAny(t.kids, n)), Walk(VictimAny(t.kids, n)), n, k);
    k := 1 + k;
    WalkSize(Victim(t, n));
  }

  lemma {:induction false} KillCutsAny(ts: seq<Tree>, n: Name) returns (k: nat)
    requires HasAny(ts, n)
    ensures Cut(WalkAll(ts), WalkAll(RemoveAny(ts, n)), Walk(VictimAny(ts, n)), n, k)
    decreases ts, 0
  {
    var x, y := Walk(ts[0]), WalkAll(ts[1..]);
    if ts[0].name == n {
      k := 0;
      CutFirst(x, y, n);
    } else if Has(ts[0], n) {
      k := KillCuts(ts[0], n);
      CutBefore(y, x, Walk(Remove(ts[0], n)), Walk(Victim(ts[0], n)), n, k);
      assert ([Remove(ts[0], n)] + ts[1..])[1..] == ts[1..];
    } else {
      HasFree(ts[0], n);
      Later(ts, n);
      k := KillCutsAny(ts[1..], n);
      CutAfter(x, y, WalkAll(RemoveAny(ts[1..], n)), Walk(VictimAny(ts[1..], n)), n, k);
      k := |x| + k;
      assert ([ts[0]] + RemoveAny(ts[1..], n))[1..] == RemoveAny(ts[1..], n);
    }
  }

  lemma {:induction false} Later(ts: seq<Tree>, n: Name)
    requires HasAny(ts, n) && !Has(ts[0], n)
    ensures HasAny(ts[1..], n)
  {
    var i :| 0 <= i < |ts| && Has(ts[i], n);
    assert Has(ts[1..][i - 1], n);
  }

  /** Killing an unknown service changes nothing. */
  lemma {:induction false} KillUnknown(t: Tree, n: Name)
    requires !Has(t, n)
    ensures Remove(t, n) == t
  {
    K.NotFound(t.kids, n);
  }

  // ---------- spawn ----------

  /** w' is w with entry x added behind the slice v at position k, which starts with the first
      entry called n. */
  ghost predicate Grown(w: seq<Entry>, w': seq<Entry>, v: seq<Entry>, n: Name, k: nat, x: Entry) {
    && k + |v| <= |w| && v != []
    && w[k..k + |v|] == v && v[0].name == n && Free(w[..k], n)
    && w' == w[..k + |v|] + [x] + w[k + |v|..]
  }

  lemma {:induction false} GrownAfter(u: seq<Entry>, w: seq<Entry>, w': seq<Entry>, v: seq<Entry>, n: Name, k: nat,
      x: Entry)
    requires Grown(w, w', v, n, k, x) && Free(u, n)
    ensures Grown(u + w, u + w', v, n, |u| + k, x)
  {
    var m := |u| + k + |v|;
    assert (u + w)[|u| + k..m] == w[k..k + |v|];
    assert (u + w)[..|u| + k] == u + w[..k];
    FreeConcat(u, w[..k], n);
    assert (u + w)[..m] == u + w[..k + |v|] && (u + w)[m..] == w[k + |v|..];
  }

  lemma {:induction false} GrownBefore(y: seq<Entry>, w: seq<Entry>, w': seq<Entry>, v: seq<Entry>, n: Name, k: nat,
      x: Entry)
    requires Grown(w, w', v, n, k, x)
    ensures Grown(w + y, w' + y, v, n, k, x)
  {
    var m := k + |v|;
    assert (w + y)[k..m] == w[k..m] && (w + y)[..k] == w[..k];
    assert (w + y)[..m] == w[..m] && (w + y)[m..] == w[m..] + y;
  }

  lemma {:induction false} WalkAppend(ts: seq<Tree>, u: Tree)
    ensures WalkAll(ts + [u]) == WalkAll(ts) + Walk(u)
  {
    if ts == [] {
      assert [u][1..] == [] && [] + [u] == [u];
    } else {
      WalkAppend(ts[1..], u);
      assert (ts + [u])[1..] == ts[1..] + [u];
    }
  }

  /** Spawning adds one entry to the preorder, right behind the subtree of the first service with
      the parent's name, and changes nothing else. */
  lemma {:induction false} SpawnGrows(t: Tree, c: Cmd) returns (k: nat)
    requires c.Spawn? && Has(t, c.parent)
    ensures Grown(Walk(t), Walk(Insert(t, c)), Walk(Victim(t, c.parent)), c.parent, k, Entry(c.child, c.seed))
    decreases t, 1
  {
    var x, w := Entry(c.child, c.seed), Walk(t);
    if t.name == c.parent {
      k := 0;
      var leaf := Node(c.child, c.seed, []);
      WalkAppend(t.kids, leaf);
      assert Walk(leaf) == [x];
      assert w[..|w|] + [x] + w[|w|..] == w + [x] && w[0..|w|] == w;
    } else {
      k := SpawnGrowsAny(t.kids, c);
      GrownAfter([Entry(t.name, t.secret)], WalkAll(t.kids), WalkAll(InsertAny(t.kids, c)), Walk(Victim(t, c.parent)),
          c.parent, k, x);
      k := 1 + k;
    }
  }

  lemma {:induction false} SpawnGrowsAny(ts: seq<Tree>, c: Cmd) returns (k: nat)
    requires c.Spawn? && HasAny(ts, c.parent)
    ensures Grown(WalkAll(ts), WalkAll(InsertAny(ts, c)), Walk(VictimAny(ts, c.parent)), c.parent, k,
        Entry(c.child, c.seed))
    decreases ts, 0
  {
    var x, y, n, e := Walk(ts[0]), WalkAll(ts[1..]), c.parent, Entry(c.child, c.seed);
    if Has(ts[0], n) {
      k := SpawnGrows(ts[0], c);
      GrownBefore(y, x, Walk(Insert(ts[0], c)), Walk(Victim(ts[0], n)), n, k, e);
      assert ([Insert(ts[0], c)] + ts[1..])[1..] == ts[1..];
    } else {
      HasFree(ts[0], n);
      Later(ts, n);
      k := SpawnGrowsAny(ts[1..], c);
      GrownAfter(x, y, WalkAll(InsertAny(ts[1..], c)), Walk(VictimAny(ts[1..], n)), n, k, e);
      k := |x| + k;
      assert ([ts[0]] + InsertAny(ts[1..], c))[1..] == InsertAny(ts[1..], c);
    }
  }

  lemma {:induction false} SpawnUnknown(t: Tree, c: Cmd)
    requires c.Spawn? && !Has(t, c.parent)
    ensures Insert(t, c) == t
  {
    S.NotFound(t.kids, c);
  }

  // ---------- exchange ----------

  function Hit(x: Entry, e: Pair): nat {
    (if x.name == e.a then 1 else 0) + (if x.name == e.b then 1 else 0)
  }

  function CountIn(w: seq<Entry>, n: Name): nat {
    if w == [] then 0 else (if w[0].name == n then 1 else 0) + CountIn(w[1..], n)
  }

  function HitsIn(w: seq<Entry>, e: Pair): nat {
    CountIn(w, e.a) + CountIn(w, e.b)
  }

  lemma {:induction false} CountConcat(x: seq<Entry>, y: seq<Entry>, n: Name)
    ensures CountIn(x + y, n) == CountIn(x, n) + CountIn(y, n)
  {
    if x == [] {
      assert x + y == y;
    } else {
      CountConcat(x[1..], y, n);
      assert (x + y)[1..] == x[1..] + y;
    }
  }

  ghost function WalkUpto(ts: seq<Tree>, i: nat): seq<Entry>
    requires i <= |ts|
  {
    if i == 0 then [] else WalkUpto(ts, i - 1) + Walk(ts[i - 1])
  }

  lemma {:induction false} WalkShift(ts: seq<Tree>, i: nat)
    requires 0 < i <= |ts|
    ensures WalkUpto(ts, i) == Walk(ts[0]) + WalkUpto(ts[1..], i - 1)
    decreases i
  {
    if i > 1 { WalkShift(ts, i - 1); }
  }

  lemma {:induction false} WalkPrefix(ts: seq<Tree>)
    ensures WalkUpto(ts, |ts|) == WalkAll(ts)
  {
    if ts != [] {
      WalkPrefix(ts[1..]);
      WalkShift(ts, |ts|);
    }
  }

  lemma {:induction false} CountWalk(t: Tree, n: Name)
    ensures CountIn(Walk(t), n) == Named(t, n)
    decreases t, 1
  {
    CountWalkUpto(t.kids, n, |t.kids|);
    WalkPrefix(t.kids);
    var top := [Entry(t.name, t.secret)];
    CountConcat(top, WalkAll(t.kids), n);
    assert top[1..] == [];
  }

  lemma {:induction false} CountWalkUpto(ts: seq<Tree>, n: Name, i: nat)
    requires i <= |ts|
    ensures CountIn(WalkUpto(ts, i), n) == NamedUpto(ts, n, i)
    decreases ts, 0, i
  {
    if i > 0 {
      CountWalkUpto(ts, n, i - 1);
      CountWalk(ts[i - 1], n);
      CountConcat(WalkUpto(ts, i - 1), Walk(ts[i - 1]), n);
    }
  }

  /** The entries of w, from the front, until the second target has been found. */
  ghost function Asked(w: seq<Entry>, e: Pair, found: nat): seq<Event>
    decreases w
  {
    if w == [] || found >= 2 then []
    else [Received(w[0].name, Exchange(e.a, e.b))] + Asked(w[1..], e, found + Hit(w[0], e))
  }

  lemma {:induction false} AskedNext(w: seq<Entry>, e: Pair, found: nat)
    requires w != [] && found < 2
    ensures Asked(w, e, found) == [Received(w[0].name, Exchange(e.a, e.b))] + Asked(w[1..], e, found + Hit(w[0], e))
  {
  }

  lemma {:induction false} AskedConcat(x: seq<Entry>, y: seq<Entry>, e: Pair, found: nat)
    ensures Asked(x + y, e, found) == Asked(x, e, found) + Asked(y, e, found + HitsIn(x, e))
    decreases x
  {
    if x == [] {
      assert x + y == y;
    } else if found < 2 {
      var w := x + y;
      assert w[0] == x[0] && w[1..] == x[1..] + y;
      AskedConcat(x[1..], y, e, found + Hit(x[0], e));
      AskedNext(w, e, found);
      AskedNext(x, e, found);
      HitsNext(x, e);
    }
  }

  lemma {:induction false} HitsNext(x: seq<Entry>, e: Pair)
    requires x != []
    ensures HitsIn(x, e) == Hit(x[0], e) + HitsIn(x[1..], e)
  {
  }

  /** An exchange asks exactly the services of the preorder up to the second target, in order. */
  lemma {:induction false} ExchangeAsks(t: Tree, e: Pair, found: nat)
    requires found < 2
    ensures ExchangeVisits(t, e, found) == Asked(Walk(t), e, found)
    decreases t, 1
  {
    var top := Entry(t.name, t.secret);
    ExchangeAsksUpto(t.kids, e, found + OwnHits(t, e), |t.kids|);
    WalkPrefix(t.kids);
    assert Walk(t)[1..] == WalkAll(t.kids);
  }

  lemma {:induction false} ExchangeAsksUpto(ts: seq<Tree>, e: Pair, found: nat, i: nat)
    requires i <= |ts|
    ensures ExchangeVisitsUpto(ts, e, found, i) == Asked(WalkUpto(ts, i), e, found)
    decreases ts, 0, i
  {
    if i > 0 {
      var x, y, before := WalkUpto(ts, i - 1), Walk(ts[i - 1]), found + HitsUpto(ts, e, i - 1);
      var tail: seq<Event> := if before < 2 then ExchangeVisits(ts[i - 1], e, before) else [];
      assert tail == Asked(y, e, before) by {
        if before < 2 { ExchangeAsks(ts[i - 1], e, before); } else { AskedEnough(y, e, before); }
      }
      assert Asked(x + y, e, found) == Asked(x, e, found) + tail by {
        HitsBefore(ts, e, i - 1);
        AskedConcat(x, y, e, found);
      }
      ExchangeAsksUpto(ts, e, found, i - 1);
      VisitsNext(ts, e, found, i);
    }
  }

  lemma {:induction false} HitsBefore(ts: seq<Tree>, e: Pair, i: nat)
    requires i <= |ts|
    ensures HitsIn(WalkUpto(ts, i), e) == HitsUpto(ts, e, i)
  {
    CountWalkUpto(ts, e.a, i);
    CountWalkUpto(ts, e.b, i);
  }

  lemma {:induction false} AskedEnough(w: seq<Entry>, e: Pair, found: nat)
    requires found >= 2
    ensures Asked(w, e, found) == []
  {
  }

  lemma {:induction false} VisitsNext(ts: seq<Tree>, e: Pair, found: nat, i: nat)
    requires 0 < i <= |ts|
    ensures var before := found + HitsUpto(ts, e, i - 1);
            ExchangeVisitsUpto(ts, e, found, i) ==
              ExchangeVisitsUpto(ts, e, found, i - 1) + if before < 2 then ExchangeVisits(ts[i - 1], e, before) else []
    ensures WalkUpto(ts, i) == WalkUpto(ts, i - 1) + Walk(ts[i - 1])
  {
  }

  function Renewed(x: Entry, e: Pair): Entry {
    Entry(x.name, if x.name == e.a then e.sb else if x.name == e.b then e.sa else x.secret)
  }

  ghost predicate RenewedAll(w: seq<Entry>, w': seq<Entry>, e: Pair) {
    |w'| == |w| && forall j :: 0 <= j < |w| ==> w'[j] == Renewed(w[j], e)
  }

  lemma {:induction false} SwapWalk(t: Tree, e: Pair)
    ensures RenewedAll(Walk(t), Walk(Swap(t, e)), e)
    decreases t, 1
  {
    SwapWalkAll(t.kids, Swap(t, e).kids, e);
  }

  lemma {:induction false} SwapWalkAll(ts: seq<Tree>, us: seq<Tree>, e: Pair)
    requires |us| == |ts| && forall i :: 0 <= i < |ts| ==> us[i] == Swap(ts[i], e)
    ensures RenewedAll(WalkAll(ts), WalkAll(us), e)
    decreases ts, 0
  {
    if ts != [] {
      SwapWalk(ts[0], e);
      SwapWalkAll(ts[1..], us[1..], e);
    }
  }

  /** The only entry called n is at position i. */
  ghost predicate Only(w: seq<Entry>, n: Name, i: nat) {
    i < |w| && w[i].name == n && forall j :: 0 <= j < |w| && j != i ==> w[j].name != n
  }

  lemma {:induction false} ZeroIn(w: seq<Entry>, n: Name)
    requires CountIn(w, n) == 0
    ensures Free(w, n)
  {
    if w != [] { ZeroIn(w[1..], n); }
  }

  lemma {:induction false} OneIn(w: seq<Entry>, n: Name) returns (i: nat)
    requires CountIn(w, n) == 1
    ensures Only(w, n, i)
  {
    if w[0].name == n {
      i := 0;
      ZeroIn(w[1..], n);
      assert forall j :: 0 < j < |w| ==> w[j] == w[1..][j - 1];
    } else {
      i := OneIn(w[1..], n);
      i := i + 1;
      assert forall j :: 0 < j < |w| ==> w[j] == w[1..][j - 1];
    }
  }

  /** The entries called a and b hold the secrets that e records. */
  ghost predicate HoldsIn(w: seq<Entry>, e: Pair) {
    forall j :: 0 <= j < |w| ==>
      (w[j].name == e.a ==> w[j].secret == e.sa) && (w[j].name == e.b ==> w[j].secret == e.sb)
  }

  lemma {:induction false} HoldsWalk(t: Tree, e: Pair)
    requires Holds(t, e)
    ensures HoldsIn(Walk(t), e)
    decreases t, 1
  {
    HoldsWalkAll(t.kids, e);
  }

  lemma {:induction false} HoldsWalkAll(ts: seq<Tree>, e: Pair)
    requires forall i :: 0 <= i < |ts| ==> Holds(ts[i], e)
    ensures HoldsIn(WalkAll(ts), e)
    decreases ts, 0
  {
    if ts != [] {
      HoldsWalk(ts[0], e);
      HoldsWalkAll(ts[1..], e);
    }
  }

  /** An exchange of two services that occur once each swaps their two secrets, and leaves every
      other entry of the preorder, and the order, alone. */
  lemma {:induction false} ExchangeSwaps(t: Tree, e: Pair) returns (i: nat, j: nat)
    requires e.a != e.b && Named(t, e.a) == 1 == Named(t, e.b) && Holds(t, e)
    ensures Only(Walk(t), e.a, i) && Only(Walk(t), e.b, j)
    ensures var w := Walk(t); Walk(Swap(t, e)) == w[i := Entry(e.a, w[j].secret)][j := Entry(e.b, w[i].secret)]
  {
    CountWalk(t, e.a);
    CountWalk(t, e.b);
    i := OneIn(Walk(t), e.a);
    j := OneIn(Walk(t), e.b);
    SwapWalk(t, e);
    HoldsWalk(t, e);
  }

  // ---------- who is asked in the search for one name ----------

  /** The entries of w, from the front, up to the first one called n. */
  ghost function Sought(w: seq<Entry>, n: Name, c: Cmd): seq<Event>
    decreases w
  {
    if w == [] then []
    else [Received(w[0].name, c)] + if w[0].name == n then [] else Sought(w[1..], n, c)
  }

  lemma {:induction false} FreeTail(x: seq<Entry>, n: Name)
    requires x != []
    ensures Free(x, n) <==> x[0].name != n && Free(x[1..], n)
  {
    assert x == [x[0]] + x[1..];
    FreeConcat([x[0]], x[1..], n);
    assert Free([x[0]], n) <==> [x[0]][0].name != n;
  }

  lemma {:induction false} SoughtConcat(x: seq<Entry>, y: seq<Entry>, n: Name, c: Cmd)
    ensures Sought(x + y, n, c) == Sought(x, n, c) + if Free(x, n) then Sought(y, n, c) else []
    decreases x
  {
    if x == [] {
      assert x + y == y;
    } else {
      FreeTail(x, n);
      var w := x + y;
      assert w[0] == x[0] && w[1..] == x[1..] + y;
      if x[0].name != n {
        SoughtConcat(x[1..], y, n, c);
        SoughtNext(w, n, c);
        SoughtNext(x, n, c);
      }
    }
  }

  lemma {:induction false} SoughtNext(w: seq<Entry>, n: Name, c: Cmd)
    requires w != [] && w[0].name != n
    ensures Sought(w, n, c) == [Received(w[0].name, c)] + Sought(w[1..], n, c)
  {
  }

  /** A kill asks the services of the preorder up to the first one of that name, in order. */
  lemma {:induction false} KillAsks(t: Tree, n: Name)
    ensures KillVisits(t, n) == Sought(Walk(t), n, Kill(n))
    decreases t, 1
  {
    KillAsksAny(t.kids, n);
    assert Walk(t)[1..] == WalkAll(t.kids);
  }

  lemma {:induction false} KillAsksAny(ts: seq<Tree>, n: Name)
    ensures KillVisitsAny(ts, n) == Sought(WalkAll(ts), n, Kill(n))
    decreases ts, 0
  {
    if ts != [] {
      KillAsks(ts[0], n);
      KillAsksAny(ts[1..], n);
      HasFree(ts[0], n);
      SoughtConcat(Walk(ts[0]), WalkAll(ts[1..]), n, Kill(n));
    }
  }

  /** So does a spawn, and the new service reports when the parent has been found. */
  lemma {:induction false} SpawnAsks(t: Tree, c: Cmd)
    requires c.Spawn?
    ensures SpawnVisits(t, c) == Sought(Walk(t), c.parent, c) + if Has(t, c.parent) then [Booted(c.child, c.seed)]
        else []
    decreases t, 1
  {
    SpawnAsksAny(t.kids, c);
    assert Walk(t)[1..] == WalkAll(t.kids);
  }

  lemma {:induction false} SpawnAsksAny(ts: seq<Tree>, c: Cmd)
    requires c.Spawn?
    ensures SpawnVisitsAny(ts, c) == Sought(WalkAll(ts), c.parent, c) + if HasAny(ts, c.parent)
        then [Booted(c.child, c.seed)] else []
    decreases ts, 0
  {
    if ts != [] {
      SpawnAsks(ts[0], c);
      HasFree(ts[0], c.parent);
      SoughtConcat(Walk(ts[0]), WalkAll(ts[1..]), c.parent, c);
      if Has(ts[0], c.parent) { SpawnAsksHere(ts, c); } else {
        SpawnAsksAny(ts[1..], c);
        HasLater(ts, c.parent);
        SpawnAsksLater(ts, c);
      }
    }
  }

  lemma {:induction false} SpawnAsksHere(ts: seq<Tree>, c: Cmd)
    requires c.Spawn? && ts != [] && Has(ts[0], c.parent)
        && SpawnVisits(ts[0], c) == Sought(Walk(ts[0]), c.parent, c) + [Booted(c.child, c.seed)]
    requires Sought(Walk(ts[0]) + WalkAll(ts[1..]), c.parent, c) == Sought(Walk(ts[0]), c.parent, c) + []
    ensures SpawnVisitsAny(ts, c) == Sought(WalkAll(ts), c.parent, c) + [Booted(c.child, c.seed)]
        && HasAny(ts, c.parent)
  {
    var v := Sought(Walk(ts[0]), c.parent, c);
    assert v + [] == v;
  }

  lemma {:induction false} SpawnAsksLater(ts: seq<Tree>, c: Cmd)
    requires c.Spawn? && ts != [] && !Has(ts[0], c.parent)
    requires SpawnVisits(ts[0], c) == Sought(Walk(ts[0]), c.parent, c) + []
    requires Sought(Walk(ts[0]) + WalkAll(ts[1..]), c.parent, c) == Sought(Walk(ts[0]), c.parent, c)
        + Sought(WalkAll(ts[1..]), c.parent, c)
    requires SpawnVisitsAny(ts[1..], c) == Sought(WalkAll(ts[1..]), c.parent, c) + if HasAny(ts[1..], c.parent)
        then [Booted(c.child, c.seed)] else []
    ensures SpawnVisitsAny(ts, c) == Sought(WalkAll(ts), c.parent, c) + if HasAny(ts[1..], c.parent)
        then [Booted(c.child, c.seed)] else []
  {
    var v, w := Sought(Walk(ts[0]), c.parent, c), Sought(WalkAll(ts[1..]), c.parent, c);
    var z: seq<Event> := if HasAny(ts[1..], c.parent) then [Booted(c.child, c.seed)] else [];
    assert v + [] == v && v + (w + z) == v + w + z;
  }

  lemma {:induction false} HasLater(ts: seq<Tree>, n: Name)
    requires ts != [] && !Has(ts[0], n)
    ensures HasAny(ts, n) <==> HasAny(ts[1..], n)
  {
    if HasAny(ts, n) { Later(ts, n); }
    if HasAny(ts[1..], n) {
      var i :| 0 <= i < |ts[1..]| && Has(ts[1..][i], n);
      assert Has(ts[i + 1], n);
    }
  }
}
