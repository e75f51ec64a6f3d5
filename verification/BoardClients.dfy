/** The client program: after a slot has been granted it fills it or gives it back before anything else. So
    the server's table agrees with the kernel in every run of the server with such clients. */
module BoardClients {
  import opened BoardCodec
  import opened BulletinBoard

  /** Where a client is in its own program: at its prompt, or entering a post for a granted slot. */
  datatype Phase = Prompt | Entering

  datatype System = System(board: Board, phases: seq<Phase>)

  /** A client can go away at any time. */
  predicate Allowed(phase: Phase, command: Command) {
    match phase
    case Prompt => command.ToPull? || command.ToPost? || command.ToLeave?
    case Entering => command.ToSubmit? || command.ToRelease? || command.ToLeave?
  }

  ghost predicate Enabled(s: System, e: Event) {
    Possible(s.board, e) && (e.Sends? ==> e.c < |s.phases| && Allowed(s.phases[e.c], e.command))
  }

  function Next(s: System, m: Moment): System
    requires WellFormed(s.board) && Enabled(s, m.event) && |m.foreign| == RECORD_NUM
  {
    var b := Do(s.board, m.event, m.foreign);
    if m.event.Arrives? then
      var c := FirstFree(s.board.clients);
      System(b, if c < |s.phases| then s.phases[c := Prompt] else s.phases)
    else
      System(b, s.phases[m.event.c := if m.event.command == ToPost && Granted(s.board, m.foreign) then Entering
          else Prompt])
  }

  ghost predicate Inv(s: System) {
    && Agree(s.board) && |s.phases| == |s.board.clients|
    && forall c :: 0 <= c < |s.phases| ==> (s.phases[c] == Entering <==> s.board.clients[c].postId != NO_POST)
  }

  /** Which clients have a slot after a command of client c: the others as before. */
  lemma {:induction false} OthersKeepTheirSlots(b: Board, e: Event, foreign: seq<Lock>, d: nat)
    requires Agree(b) && Orderly(b, e) && |foreign| == RECORD_NUM && d < |b.clients|
    ensures |Do(b, e, foreign).clients| == |b.clients|
    ensures e.Arrives? || d != e.c ==> Do(b, e, foreign).clients[d].postId == b.clients[d].postId
    ensures e.Sends? && d == e.c && e.command == ToPull ==> Do(b, e, foreign).clients[d].postId == b.clients[d].postId
  {
  }

  lemma {:induction false} OwnSlot(b: Board, c: nat, command: Command, foreign: seq<Lock>)
    requires Agree(b) && Orderly(b, Sends(c, command)) && |foreign| == RECORD_NUM && command != ToPull
    ensures Do(b, Sends(c, command), foreign).clients[c].postId != NO_POST <==> command == ToPost && Granted(b, foreign)
  {
    if b.clients[c].postId >= 0 { assert Owns(b, c, b.clients[c].postId); }
  }

  lemma {:induction false} StepKeeps(s: System, m: Moment)
    requires Inv(s) && Enabled(s, m.event) && |m.foreign| == RECORD_NUM
    ensures Orderly(s.board, m.event) && Inv(Next(s, m))
  {
    var e, b := m.event, Do(s.board, m.event, m.foreign);
    EventKeeps(s.board, e, m.foreign);
    forall d | 0 <= d < |s.phases| ensures |b.clients| == |s.phases|
        && (Next(s, m).phases[d] == Entering <==> b.clients[d].postId != NO_POST) {
      OthersKeepTheirSlots(s.board, e, m.foreign, d);
      if e.Sends? && e.c == d && e.command != ToPull { OwnSlot(s.board, d, e.command, m.foreign); }
    }
    if |s.phases| == 0 { NoClients(s.board, e, m.foreign); }
  }

  lemma {:induction false} NoClients(b: Board, e: Event, foreign: seq<Lock>)
    requires WellFormed(b) && Possible(b, e) && |foreign| == RECORD_NUM
    ensures |Do(b, e, foreign).clients| == |b.clients|
  {
  }

  /** The server as it starts, with nobody connected. */
  lemma {:induction false} StartAgrees(m: nat, records: seq<Post>)
    requires |records| == RECORD_NUM && forall k :: 0 <= k < RECORD_NUM ==> Sized(records[k])
    ensures var b := Board(seq(RECORD_NUM, _ => false), seq(RECORD_NUM, _ => Unlocked), seq(m, _ => NOBODY), 0,
        records);
            Inv(System(b, seq(m, _ => Prompt)))
  {
    Empty(m, records);
  }

  ghost predicate Legal(s: System, run: seq<Moment>)
    decreases |run|
  {
    run == [] || (WellFormed(s.board) && Enabled(s, run[0].event) && |run[0].foreign| == RECORD_NUM
        && Legal(Next(s, run[0]), run[1..]))
  }

  ghost function Later(s: System, run: seq<Moment>): System
    requires Legal(s, run)
    decreases |run|
  {
    if run == [] then s else Later(Next(s, run[0]), run[1..])
  }

  /** Whatever the clients, the network and other processes do: at every command boundary the server's table,
      the clients' slots and the kernel's locks agree, and a client is entering a post exactly when it has a slot. */
  lemma {:induction false} AlwaysAgree(s: System, run: seq<Moment>)
    requires Inv(s) && Legal(s, run)
    ensures Inv(Later(s, run)) && OrderlyRun(s.board, run) && After(s.board, run) == Later(s, run).board
    decreases |run|
  {
    if run != [] {
      StepKeeps(s, run[0]);
      AlwaysAgree(Next(s, run[0]), run[1..]);
    }
  }
}
