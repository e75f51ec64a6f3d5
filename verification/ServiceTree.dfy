/** The tree of services as plain values, and what each console command does to it. */
module ServiceTree {

  /** Service names matter only through equality, and through being the Manager's. */
  datatype Name = TheManager | Service(id: nat)

  const MANAGER := TheManager

  datatype Tree = Node(name: Name, secret: nat, kids: seq<Tree>)

  /** A command line, as it travels on standard input and on the parent-to-child pipes.
      `seed` stands for the secret the spawned process will draw at random. */
  datatype Cmd =
    | Spawn(parent: Name, child: Name, seed: nat)
    | Kill(target: Name)
    | Killall
    | Exchange(a: Name, b: Name)
    | FoundOne(a: Name, b: Name)

  /** One line on the terminal, which all the services share. */
  datatype Event =
    | Received(who: Name, cmd: Cmd)
    | Booted(who: Name, secret: nat)
    | Spawned(parent: Name, child: Name)
    | NotExist(name: Name)
    | Killed(name: Name, count: nat)
    | Acquired(who: Name, peer: Name, secret: nat)
    | Exchanged(a: Name, b: Name)
    | Missing(a: Name, b: Name)

  ghost predicate Has(t: Tree, n: Name) {
    t.name == n || exists i :: 0 <= i < |t.kids| && Has(t.kids[i], n)
  }

  ghost predicate HasAny(ts: seq<Tree>, n: Name) {
    exists i :: 0 <= i < |ts| && Has(ts[i], n)
  }

  /** The descendants of every tree in `ts` are ordinary services. */
  ghost predicate Plain(ts: seq<Tree>) {
    forall i :: 0 <= i < |ts| ==> ts[i].name != MANAGER && Plain(ts[i].kids)
  }

  function Size(t: Tree): (n: nat)
    ensures n >= 1
    decreases t, 1
  {
    1 + SizeAll(t.kids)
  }

  function SizeAll(ts: seq<Tree>): nat
    decreases ts, 0
  {
    if ts == [] then 0 else Size(ts[0]) + SizeAll(ts[1..])
  }

  // ---------- spawn ----------

  /** A leaf becomes the last child of the first service, in preorder, that has the wanted name. */
  ghost function Insert(t: Tree, c: Cmd): Tree
    requires c.Spawn?
    decreases t, 1
  {
    if t.name == c.parent then Node(t.name, t.secret, t.kids + [Node(c.child, c.seed, [])])
    else Node(t.name, t.secret, InsertAny(t.kids, c))
  }

  ghost function InsertAny(ts: seq<Tree>, c: Cmd): (r: seq<Tree>)
    requires c.Spawn?
    ensures |r| == |ts|
    decreases ts, 0
  {
    if ts == [] then []
    else if Has(ts[0], c.parent) then [Insert(ts[0], c)] + ts[1..]
    else [ts[0]] + InsertAny(ts[1..], c)
  }

  /** What the search for the parent prints, service by service. */
  ghost function SpawnVisits(t: Tree, c: Cmd): seq<Event>
    requires c.Spawn?
    decreases t, 1
  {
    [Received(t.name, c)] +
    if t.name == c.parent then [Booted(c.child, c.seed)] else SpawnVisitsAny(t.kids, c)
  }

  ghost function SpawnVisitsAny(ts: seq<Tree>, c: Cmd): seq<Event>
    requires c.Spawn?
    decreases ts, 0
  {
    if ts == [] then []
    else if Has(ts[0], c.parent) then SpawnVisits(ts[0], c)
    else SpawnVisits(ts[0], c) + SpawnVisitsAny(ts[1..], c)
  }

  ghost function SpawnLog(t: Tree, c: Cmd): seq<Event>
    requires c.Spawn?
  {
    SpawnVisits(t, c) +
    if t.name != MANAGER then []
    else if Has(t, c.parent) then [Spawned(c.parent, c.child)] else [NotExist(c.parent)]
  }

  // ---------- kill ----------

  /** The first service, in preorder, with name n. */
  ghost function Victim(t: Tree, n: Name): Tree
    requires Has(t, n)
    decreases t, 1
  {
    if t.name == n then t else VictimAny(t.kids, n)
  }

  ghost function VictimAny(ts: seq<Tree>, n: Name): Tree
    requires HasAny(ts, n)
    decreases ts, 0
  {
    if Has(ts[0], n) then Victim(ts[0], n) else VictimAny(ts[1..], n)
  }

  /** The descendants that die with the victim, as an unsigned char counts them. */
  ghost function Toll(t: Tree, n: Name): nat
    requires Has(t, n)
  {
    (Size(Victim(t, n)) - 1) % 256
  }

  /** The victim below t goes, with everything below it. */
  ghost function Remove(t: Tree, n: Name): Tree
    requires t.name != n
    decreases t, 1
  {
    Node(t.name, t.secret, RemoveAny(t.kids, n))
  }

  ghost function RemoveAny(ts: seq<Tree>, n: Name): seq<Tree>
    decreases ts, 0
  {
    if ts == [] then []
    else if ts[0].name == n then ts[1..]
    else if Has(ts[0], n) then [Remove(ts[0], n)] + ts[1..]
    else [ts[0]] + RemoveAny(ts[1..], n)
  }

  /** What the search for the victim prints. */
  ghost function KillVisits(t: Tree, n: Name): seq<Event>
    decreases t, 1
  {
    [Received(t.name, Kill(n))] + if t.name == n then [] else KillVisitsAny(t.kids, n)
  }

  ghost function KillVisitsAny(ts: seq<Tree>, n: Name): seq<Event>
    decreases ts, 0
  {
    if ts == [] then []
    else if Has(ts[0], n) then KillVisits(ts[0], n)
    else KillVisits(ts[0], n) + KillVisitsAny(ts[1..], n)
  }

  ghost function KillLog(t: Tree, n: Name): seq<Event> {
    KillVisits(t, n) +
    if t.name != MANAGER then []
    else if Has(t, n) then [Killed(n, Toll(t, n))] else [NotExist(n)]
  }

  /** The first i trees do not have the name that is looked for. */
  ghost predicate Searched(ts: seq<Tree>, i: nat, n: Name) {
    i <= |ts| && forall j :: 0 <= j < i ==> !Has(ts[j], n)
  }

  // ---------- exchange ----------

  /** The two services that swap, and their secrets before the swap. */
  datatype Pair = Pair(a: Name, b: Name, sa: nat, sb: nat)

  function Self(t: Tree, n: Name): nat {
    if t.name == n then 1 else 0
  }

  /** How often name n occurs in t, and in the first i trees of ts. */
  ghost function Named(t: Tree, n: Name): nat
    decreases t, 0
  {
    Self(t, n) + NamedUpto(t.kids, n, |t.kids|)
  }

  ghost function NamedUpto(ts: seq<Tree>, n: Name, i: nat): nat
    requires i <= |ts|
    decreases ts, i + 1
  {
    if i == 0 then 0 else NamedUpto(ts, n, i - 1) + Named(ts[i - 1], n)
  }

  /** How many services of t take part in the exchange; how many are t itself; and how many occur
      in the first i trees of ts. */
  ghost function Hits(t: Tree, e: Pair): nat {
    Named(t, e.a) + Named(t, e.b)
  }

  function OwnHits(t: Tree, e: Pair): nat {
    Self(t, e.a) + Self(t, e.b)
  }

  ghost function HitsUpto(ts: seq<Tree>, e: Pair, i: nat): nat
    requires i <= |ts|
  {
    NamedUpto(ts, e.a, i) + NamedUpto(ts, e.b, i)
  }

  /** Every service called a holds sa, and every service called b holds sb. */
  ghost predicate Holds(t: Tree, e: Pair) {
    && (t.name == e.a ==> t.secret == e.sa) && (t.name == e.b ==> t.secret == e.sb)
    && forall i :: 0 <= i < |t.kids| ==> Holds(t.kids[i], e)
  }

  function NewSecret(t: Tree, e: Pair): nat {
    if t.name == e.a then e.sb else if t.name == e.b then e.sa else t.secret
  }

  ghost function Swap(t: Tree, e: Pair): Tree {
    Node(t.name, NewSecret(t, e), seq(|t.kids|, i requires 0 <= i < |t.kids| => Swap(t.kids[i], e)))
  }

  /** What counting the two services prints, when `found` have been counted before t: the
      children take their turn as long as fewer than two have been counted. */
  ghost function ExchangeVisits(t: Tree, e: Pair, found: nat): seq<Event>
    decreases t, 0
  {
    [Received(t.name, Exchange(e.a, e.b))] + ExchangeVisitsUpto(t.kids, e, found + OwnHits(t, e), |t.kids|)
  }

  ghost function ExchangeVisitsUpto(ts: seq<Tree>, e: Pair, found: nat, i: nat): seq<Event>
    requires i <= |ts|
    decreases ts, i + 1
  {
    if i == 0 then []
    else
      var before := found + HitsUpto(ts, e, i - 1);
      ExchangeVisitsUpto(ts, e, found, i - 1) + if before < 2 then ExchangeVisits(ts[i - 1], e, before) else []
  }
}
