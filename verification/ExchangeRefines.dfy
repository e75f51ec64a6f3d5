/** `exchange` at the Manager: the whole command, from the terminal line to the closing line. */
module ExchangeRefines {
  import opened ServiceTree
  import opened ServiceMachine
  import opened ServiceMeasure
  import opened FifoSwap
  import opened ExchangeState
  import EA = ExchangeActs
  import EC = ExchangeCounts

  /** The Manager's tree, with the exchange it is asked for. */
  ghost predicate Setting(t: Tree, e: Pair) {
    t.name == MANAGER && EA.Fit(t, e)
  }

  /** What the Manager prints on standard error when it has not found both. */
  ghost function Complaint(t: Tree, e: Pair): seq<Event> {
    if Hits(t, e) < 2 then [Missing(e.a, e.b)] else []
  }

  /** What a complete exchange prints. */
  ghost function ExchangeLog(t: Tree, e: Pair): seq<Event> {
    ExchangeVisits(t, e, 0) + Complaint(t, e)
    + if Hits(t, e) == 0 then [] else EA.Acquisitions(e, Pos(SCRIPT_LEN, SCRIPT_LEN)) + [Exchanged(e.a, e.b)]
  }

  /** The exchange goes on, with the two scripts at p, after the visits and complaints `vis`. */
  ghost predicate Running(l: Link, g: Fifos, t: Tree, e: Pair, p: Pos, rest: seq<Down>, vis: seq<Event>) {
    && Met(p) && g == Files(e, p) && Within(Named(t, e.a), Named(t, e.b), p)
    && (Pending(l, t, e, 0, 0, p, rest, vis) || Acts(l, t, e, p, rest, vis))
  }

  ghost predicate Acts(l: Link, t: Tree, e: Pair, p: Pos, rest: seq<Down>, vis: seq<Event>) {
    Hits(t, e) > 0 && Acting(l, t, e, p, rest, []) && vis == ExchangeVisits(t, e, 0) + Complaint(t, e)
  }

  /** The exchange is over: with two targets, they have swapped; with none, nothing has changed. */
  ghost predicate Finished(l: Link, g: Fifos, t: Tree, e: Pair, rest: seq<Down>, seen: seq<Event>) {
    && Hits(t, e) != 1 && g == map[] && seen == ExchangeLog(t, e)
    && l == Link(rest, [], Rest(if Hits(t, e) == 0 then t else Swap(t, e)))
  }

  lemma Printed(e: Pair, p: Pos, q: Pos)
    requires Met(p) && Goes(p, q)
    ensures EA.Acquisitions(e, q) == EA.Acquisitions(e, p) + EA.Gained(e, p, q)
  {
  }

  lemma WithinMoves(t: Tree, e: Pair, p: Pos, q: Pos)
    requires Within(Named(t, e.a), Named(t, e.b), p) && MovesTree(t, e, p, q)
    ensures Within(Named(t, e.a), Named(t, e.b), q)
  {
  }

  /** The exchange goes on as before, or one step further; it has printed ev in between. */
  ghost predicate GoesOn(l: Link, m: Move, t: Tree, e: Pair, p: Pos, q: Pos, rest: seq<Down>, vis: seq<Event>,
      now: seq<Event>) {
    && m.Moved? && Running(m.link, m.fifos, t, e, q, rest, now) && m.link.proc.pc != Ready
    && vis + EA.Acquisitions(e, p) + m.ev == now + EA.Acquisitions(e, q)
    && Work(m.link) < Pot(l)
  }

  /** The exchange is over. */
  ghost predicate Ends(l: Link, m: Move, t: Tree, e: Pair, p: Pos, rest: seq<Down>, vis: seq<Event>) {
    m.Moved? && Finished(m.link, m.fifos, t, e, rest, vis + EA.Acquisitions(e, p) + m.ev) && Work(m.link) < Pot(l)
  }

  lemma Shuffle(e: Pair, p: Pos, q: Pos, vis: seq<Event>, v: seq<Event>)
    requires EA.Acquisitions(e, q) == EA.Acquisitions(e, p) + EA.Gained(e, p, q)
    requires v != [] ==> q == p && EA.Acquisitions(e, p) == []
    ensures vis + EA.Acquisitions(e, p) + (EA.Gained(e, p, q) + v) == vis + v + EA.Acquisitions(e, q)
  {
  }

  lemma {:induction false} CountsStep(l: Link, t: Tree, e: Pair, p: Pos, rest: seq<Down>, vis: seq<Event>,
      path: seq<nat>)
    returns (q: Pos, now: seq<Event>)
    requires Setting(t, e) && Running(l, Files(e, p), t, e, p, rest, vis) && Pending(l, t, e, 0, 0, p, rest, vis)
    requires !(path == [] && l.proc.pc.XReport?) && StepAt(l, Files(e, p), path).Moved?
    ensures GoesOn(l, StepAt(l, Files(e, p), path), t, e, p, q, rest, vis, now)
  {
    var v;
    q, v := EC.PendingStep(l, t, e, 0, 0, p, rest, vis, path);
    now := vis + v;
    Printed(e, p, q);
    WithinMoves(t, e, p, q);
    Shuffle(e, p, q, vis, v);
  }

  lemma {:induction false} NotYet(p: Pos, t: Tree, e: Pair)
    requires Met(p) && Within(Named(t, e.a), Named(t, e.b), p) && Hits(t, e) < 2 && EA.Fit(t, e)
    ensures EA.Acquisitions(e, p) == [] && (Hits(t, e) == 0 ==> p == Pos(0, 0))
        && !(Hits(t, e) > 0 && ThroughTree(t, e, p))
  {
  }

  lemma {:induction false} CountsReport(l: Link, t: Tree, e: Pair, p: Pos, rest: seq<Down>, vis: seq<Event>)
    requires Setting(t, e) && Running(l, Files(e, p), t, e, p, rest, vis) && Pending(l, t, e, 0, 0, p, rest, vis)
    requires l.proc.pc.XReport?
    ensures if Hits(t, e) == 0 then Ends(l, StepNode(l, Files(e, p)), t, e, p, rest, vis)
            else GoesOn(l, StepNode(l, Files(e, p)), t, e, p, p, rest, vis, vis + Complaint(t, e))
  {
    EC.ManagerReport(l, t, e, p, rest, vis, Files(e, p));
    EC.CountCost(l, t, e, 0, 0, p, rest, vis, Files(e, p));
    assert vis == ExchangeVisits(t, e, 0);
    var m := StepNode(l, Files(e, p));
    if Hits(t, e) == 0 { NoneThere(l, m, t, e, p, rest, vis); } else { SomeThere(l, m, t, e, p, rest, vis); }
  }

  lemma {:induction false} NoneThere(l: Link, m: Move, t: Tree, e: Pair, p: Pos, rest: seq<Down>, vis: seq<Event>)
    requires EA.Fit(t, e) && Hits(t, e) == 0 && Met(p) && Within(Named(t, e.a), Named(t, e.b), p)
        && vis == ExchangeVisits(t, e, 0)
    requires m.Moved? && m.link == Link(rest, [], Rest(t)) && m.fifos == Files(e, p) && m.ev == [Missing(e.a, e.b)]
        && Work(m.link) < Pot(l)
    ensures Ends(l, m, t, e, p, rest, vis)
  {
    NotYet(p, t, e);
    assert vis + [] + m.ev == vis + m.ev + [];
  }

  lemma {:induction false} SomeThere(l: Link, m: Move, t: Tree, e: Pair, p: Pos, rest: seq<Down>, vis: seq<Event>)
    requires EA.Fit(t, e) && Hits(t, e) > 0 && Met(p) && Within(Named(t, e.a), Named(t, e.b), p)
        && vis == ExchangeVisits(t, e, 0)
    requires m.Moved? && Acting(m.link, t, e, p, rest, []) && m.fifos == Files(e, p) && m.ev == Complaint(t, e)
        && Work(m.link) < Pot(l)
    ensures GoesOn(l, m, t, e, p, p, rest, vis, vis + Complaint(t, e))
  {
    if Hits(t, e) < 2 { NotYet(p, t, e); }
    var acq := EA.Acquisitions(e, p);
    assert vis + acq + m.ev == vis + m.ev + acq;
  }

  lemma {:induction false} ActsStep(l: Link, t: Tree, e: Pair, p: Pos, rest: seq<Down>, vis: seq<Event>, path: seq<nat>)
      returns (q: Pos)
    requires Setting(t, e) && Running(l, Files(e, p), t, e, p, rest, vis) && Acts(l, t, e, p, rest, vis)
    requires StepAt(l, Files(e, p), path).Moved?
    ensures var m := StepAt(l, Files(e, p), path);
            Ends(l, m, t, e, p, rest, vis) || GoesOn(l, m, t, e, p, q, rest, vis, vis)
  {
    q := EA.ActingStep(l, t, e, p, rest, [], path);
    Printed(e, p, q);
    WithinMoves(t, e, p, q);
    Shuffle(e, p, q, vis, []);
    if path == [] && l.proc.pc.XReply? { Closes(l, t, e, p, q, rest, vis); }
  }

  lemma {:induction false} Closes(l: Link, t: Tree, e: Pair, p: Pos, q: Pos, rest: seq<Down>, vis: seq<Event>)
    requires Setting(t, e) && Acts(l, t, e, p, rest, vis) && Met(q) && Within(Named(t, e.a), Named(t, e.b), q)
    requires var m := StepNode(l, Files(e, p));
             && m.Moved? && EA.Swapped(m.link, t, e, q, rest, []) && m.fifos == Files(e, q) && Work(m.link) < Pot(l)
             && m.ev == EA.Gained(e, p, q) + [Exchanged(e.a, e.b)]
    requires EA.Acquisitions(e, q) == EA.Acquisitions(e, p) + EA.Gained(e, p, q)
    ensures Ends(l, StepNode(l, Files(e, p)), t, e, p, rest, vis)
  {
    if Hits(t, e) < 2 { NotYet(q, t, e); }
    assert q == Pos(SCRIPT_LEN, SCRIPT_LEN) && Files(e, q) == map[];
    var end := [Exchanged(e.a, e.b)];
    assert vis + EA.Acquisitions(e, p) + (EA.Gained(e, p, q) + end) == vis + (EA.Acquisitions(e, q) + end);
  }

  /** Whichever process moves, the exchange goes on, or it is over. */
  lemma {:induction false} AnyStep(l: Link, t: Tree, e: Pair, p: Pos, rest: seq<Down>, vis: seq<Event>, path: seq<nat>)
    returns (q: Pos, now: seq<Event>)
    requires Setting(t, e) && Running(l, Files(e, p), t, e, p, rest, vis) && StepAt(l, Files(e, p), path).Moved?
    ensures var m := StepAt(l, Files(e, p), path);
            Ends(l, m, t, e, p, rest, vis) || GoesOn(l, m, t, e, p, q, rest, vis, now)
  {
    q, now := p, vis;
    if Acts(l, t, e, p, rest, vis) {
      q := ActsStep(l, t, e, p, rest, vis, path);
    } else if path == [] && l.proc.pc.XReport? {
      CountsReport(l, t, e, p, rest, vis);
      now := vis + Complaint(t, e);
    } else {
      q, now := CountsStep(l, t, e, p, rest, vis, path);
    }
  }

  /** With both services there, or neither, there is always a step to take. */
  lemma {:induction false} Progress(l: Link, t: Tree, e: Pair, p: Pos, rest: seq<Down>, vis: seq<Event>)
      returns (path: seq<nat>)
    requires Setting(t, e) && Running(l, Files(e, p), t, e, p, rest, vis) && Hits(t, e) != 1
    ensures StepAt(l, Files(e, p), path).Moved?
  {
    if Acts(l, t, e, p, rest, vis) {
      path := EA.ActingProgress(l, t, e, p, rest, []);
    } else {
      path := EC.Progress(l, t, e, 0, 0, p, rest, vis, Files(e, p));
    }
  }

  /** With one of the two services only, the exchange stops where that service has opened its first fifo and
      waits for the other end. */
  lemma {:induction false} Hangs(l: Link, t: Tree, e: Pair, p: Pos, rest: seq<Down>, vis: seq<Event>)
    requires Setting(t, e) && Running(l, Files(e, p), t, e, p, rest, vis) && Hits(t, e) == 1
    requires forall path :: !StepAt(l, Files(e, p), path).Moved?
    ensures p == if Named(t, e.a) == 1 then Pos(3, 0) else Pos(0, 3)
  {
    if Acts(l, t, e, p, rest, vis) {
      var first := Named(t, e.a) == 1;
      if p.a < 3 && p.b < 3 {
        Opens(e, p, first);
        var path := EA.FindScript(l, t, e, p, rest, [], first);
      }
    } else {
      var path := EC.Progress(l, t, e, 0, 0, p, rest, vis, Files(e, p));
    }
  }

  /** Up to the open nothing blocks. */
  lemma Opens(e: Pair, p: Pos, first: bool)
    requires e.a != e.b && (if first then p.a < 3 && p.b == 0 else p.a == 0 && p.b < 3)
    ensures FifoStep(Op(e, p, first), Files(e, p), Secret(e, first)).Done?
  {
  }

  lemma {:induction false} RunningTidy(l: Link, g: Fifos, t: Tree, e: Pair, p: Pos, rest: seq<Down>, vis: seq<Event>)
    requires Running(l, g, t, e, p, rest, vis)
    ensures Tidy(l.proc)
  {
    if Acts(l, t, e, p, rest, vis) { EA.ActingTidy(l, t, e, p, rest, []); }
    else { EC.PendingTidy(l, t, e, 0, 0, p, rest, vis); }
  }

  /** The Manager is ready for input only before the exchange has begun. */
  lemma {:induction false} RunningReady(l: Link, g: Fifos, t: Tree, e: Pair, p: Pos, rest: seq<Down>, vis: seq<Event>)
    requires Running(l, g, t, e, p, rest, vis) && l.proc.pc == Ready
    ensures l == Link([Line(Exchange(e.a, e.b))] + rest, [], Rest(t)) && vis == [] && g == map[]
    ensures EA.Acquisitions(e, p) == []
  {
    if Acts(l, t, e, p, rest, vis) { EA.ActingTidy(l, t, e, p, rest, []); }
    else { EC.PendingReady(l, t, e, 0, 0, p, rest, vis); }
  }
}
