/** The two fifo scripts of `exchange`, run against each other. */
module FifoSwap {
  import opened ServiceTree
  import opened ServiceMachine

  /** How far service a and service b have got in their scripts. */
  datatype Pos = Pos(a: nat, b: nat)

  function EndAt(p: nat, open: nat, close: nat): End {
    if p < open then Unopened else if p < close then Open else Closed
  }

  /** The fifo from b to a, as the two positions determine it. */
  function BtoA(e: Pair, p: Pos): Fifo {
    Fifo(EndAt(p.a, 3, 6), EndAt(p.b, 3, 6), if p.b >= 5 && p.a < 5 then [e.sb] else [])
  }

  function AtoB(e: Pair, p: Pos): Fifo {
    Fifo(EndAt(p.b, 7, 10), EndAt(p.a, 8, 11), if p.a >= 10 && p.b < 9 then [e.sa] else [])
  }

  /** The fifos that exist. */
  function Files(e: Pair, p: Pos): Fifos {
    (if (p.a >= 1 || p.b >= 2) && p.a < 7 then map[(e.b, e.a) := BtoA(e, p)] else map[])
    + (if (p.a >= 2 || p.b >= 1) && p.b < 11 then map[(e.a, e.b) := AtoB(e, p)] else map[])
  }

  /** The positions that the rendezvous of the two scripts allows. */
  predicate Met(p: Pos) {
    && p.a <= 11 && p.b <= 11
    && (p.a >= 4 ==> p.b >= 3) && (p.b >= 4 ==> p.a >= 3)
    && (p.a >= 5 ==> p.b >= 5) && (p.b >= 8 ==> p.a >= 8)
    && (p.a >= 9 ==> p.b >= 7) && (p.b >= 9 ==> p.a >= 10)
  }

  /** At most one of the two scripts takes a step from p to q. */
  predicate Goes(p: Pos, q: Pos) {
    Met(q) && p.a <= q.a && p.b <= q.b && q.a + q.b <= p.a + p.b + 1
  }

  /** The next operation of either service. */
  function Op(e: Pair, p: Pos, first: bool): FifoOp
    requires if first then p.a < 11 else p.b < 11
  {
    if first then Script(e.a, e.b, true)[p.a] else Script(e.b, e.a, false)[p.b]
  }

  function Secret(e: Pair, first: bool): nat {
    if first then e.sa else e.sb
  }

  function Advance(p: Pos, first: bool): Pos {
    if first then Pos(p.a + 1, p.b) else Pos(p.a, p.b + 1)
  }

  /** Either script, at any point of any interleaving, blocks or does its next operation; no
      operation fails, and what is read is the other's secret. */
  lemma StepA(e: Pair, p: Pos)
    requires e.a != e.b && Met(p) && p.a < 11
    ensures var r := FifoStep(Op(e, p, true), Files(e, p), e.sa);
            && !r.Error?
            && (r.Done? ==> Met(Advance(p, true)) && r.g == Files(e, Advance(p, true)))
            && (r.Done? && p.a == 4 ==> r.value == e.sb)
  {
    var op := Op(e, p, true);
    if p.a < 3 {
    } else if p.a < 6 {
      assert [e.sb][1..] == [];
    } else if p.a < 9 {
    } else {
      assert [] + [e.sa] == [e.sa];
    }
  }

  lemma StepB(e: Pair, p: Pos)
    requires e.a != e.b && Met(p) && p.b < 11
    ensures var r := FifoStep(Op(e, p, false), Files(e, p), e.sb);
            && !r.Error?
            && (r.Done? ==> Met(Advance(p, false)) && r.g == Files(e, Advance(p, false)))
            && (r.Done? && p.b == 8 ==> r.value == e.sa)
  {
    var op := Op(e, p, false);
    if p.b < 3 {
    } else if p.b < 6 {
      assert [] + [e.sb] == [e.sb];
    } else if p.b < 9 {
      assert [e.sa][1..] == [];
    } else {
    }
  }

  /** The two scripts never block each other: one of them can go on until both are through. */
  lemma NoDeadlock(e: Pair, p: Pos)
    requires e.a != e.b && Met(p) && (p.a < 11 || p.b < 11)
    ensures || (p.a < 11 && FifoStep(Op(e, p, true), Files(e, p), e.sa).Done?)
            || (p.b < 11 && FifoStep(Op(e, p, false), Files(e, p), e.sb).Done?)
  {
    if p.a < 11 { StepA(e, p); }
    if p.b < 11 { StepB(e, p); }
  }
}
