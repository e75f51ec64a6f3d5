/** The server's state between two commands, and what each command makes of it: which slots are granted to
    whom, and which record locks the process holds. */
module BulletinBoard {
  import opened BoardCodec
  import opened RecordCircle

  const NO_POST := -1

  /** The lock a process holds on a record of the file. */
  datatype Lock = Unlocked | ReadLock | WriteLock

  datatype Client = Client(connected: bool, postId: int)

  const NOBODY := Client(false, NO_POST)

  /** `locked` is the server's own table, `held` the locks that the kernel has on record for it. */
  datatype Board = Board(locked: seq<bool>, held: seq<Lock>, clients: seq<Client>, last: nat, records: seq<Post>)

  ghost predicate WellFormed(b: Board) {
    && |b.locked| == |b.held| == |b.records| == RECORD_NUM && b.last < RECORD_NUM
    && (forall k :: 0 <= k < RECORD_NUM ==> Sized(b.records[k]))
    && (forall c :: 0 <= c < |b.clients| ==> NO_POST <= b.clients[c].postId < RECORD_NUM)
  }

  // ---------- the commands ----------

  /** Slot s can be granted: it is not in the table and no other process holds a lock on it. */
  predicate Available(b: Board, foreign: seq<Lock>, s: nat)
    requires s < |b.locked| && s < |foreign|
  {
    !b.locked[s] && foreign[s] == Unlocked
  }

  /** How far `post_req` goes around the circle, if it starts i places on. */
  function Search(b: Board, foreign: seq<Lock>, i: nat): (r: nat)
    requires |b.locked| == |foreign| == RECORD_NUM && i <= RECORD_NUM
    ensures i <= r <= RECORD_NUM
    ensures forall k :: i <= k < r ==> !Available(b, foreign, SlotAt(b.last, k))
    ensures r < RECORD_NUM ==> Available(b, foreign, SlotAt(b.last, r))
    decreases RECORD_NUM - i
  {
    if i == RECORD_NUM || Available(b, foreign, SlotAt(b.last, i)) then i else Search(b, foreign, i + 1)
  }

  predicate Granted(b: Board, foreign: seq<Lock>)
    requires |b.locked| == |foreign| == RECORD_NUM
  {
    Search(b, foreign, 0) < RECORD_NUM
  }

  function Chosen(b: Board, foreign: seq<Lock>): nat
    requires |b.locked| == |foreign| == RECORD_NUM
  {
    SlotAt(b.last, Search(b, foreign, 0))
  }

  function PostReq(b: Board, c: nat, foreign: seq<Lock>): Board
    requires |b.locked| == |b.held| == |foreign| == RECORD_NUM && c < |b.clients|
  {
    if Granted(b, foreign) then
      var s := Chosen(b, foreign);
      b.(locked := b.locked[s := true], held := b.held[s := WriteLock],
          clients := b.clients[c := b.clients[c].(postId := s)],
         last := SlotAt(s, 1))
    else b
  }

  /** A client without a slot has nothing to release. */
  function ReleaseLock(b: Board, c: nat): Board
    requires |b.locked| == |b.held| == RECORD_NUM && c < |b.clients| && b.clients[c].postId < RECORD_NUM
  {
    var s := b.clients[c].postId;
    if s >= 0 && b.locked[s] then
      b.(locked := b.locked[s := false], held := b.held[s := Unlocked],
          clients := b.clients[c := b.clients[c].(postId := NO_POST)])
    else b
  }

  function PostContent(b: Board, c: nat, post: Post): Board
    requires |b.locked| == |b.held| == |b.records| == RECORD_NUM && c < |b.clients| && b.clients[c].postId < RECORD_NUM
  {
    var s := b.clients[c].postId;
    if s < 0 then b else ReleaseLock(b.(records := b.records[s := NormalPost(post)]), c)
  }

  function FreeClient(b: Board, c: nat): Board
    requires |b.locked| == |b.held| == RECORD_NUM && c < |b.clients| && b.clients[c].postId < RECORD_NUM
  {
    var r := ReleaseLock(b, c);
    r.(clients := r.clients[c := NOBODY])
  }

  /** The slots a pull cannot read: those in the table, and those that another process is writing. */
  function ClosedTo(b: Board, foreign: seq<Lock>): (r: seq<bool>)
    requires |b.locked| == |foreign|
    ensures |r| == |b.locked|
  {
    seq(|b.locked|, k requires 0 <= k < |b.locked| => b.locked[k] || foreign[k] == WriteLock)
  }

  /** A pull locks and unlocks every record it reads. */
  function Pull(b: Board, foreign: seq<Lock>): Board
    requires |b.locked| == |b.held| == |foreign|
  {
    b.(held := seq(|b.held|, k requires 0 <= k < |b.held| => if ClosedTo(b, foreign)[k] then b.held[k] else Unlocked))
  }

  /** The bytes it answers. */
  function Answer(b: Board, foreign: seq<Lock>): seq<Byte>
    requires |b.locked| == |b.records| == |foreign| == RECORD_NUM
    requires forall k :: 0 <= k < |b.records| ==> Sized(b.records[k])
  {
    Response(Included(b.records, ClosedTo(b, foreign), RECORD_NUM))
  }

  function FirstFree(clients: seq<Client>): (c: nat)
    ensures c <= |clients| && (c < |clients| ==> !clients[c].connected) && forall k :: 0 <= k < c ==>
        clients[k].connected
  {
    if clients == [] || !clients[0].connected then 0 else 1 + FirstFree(clients[1..])
  }

  /** A new connection takes the first free place, or is turned away. */
  function Accept(b: Board): Board {
    var c := FirstFree(b.clients);
    if c < |b.clients| then b.(clients := b.clients[c := b.clients[c].(connected := true)]) else b
  }

  datatype Command = ToPull | ToPost | ToSubmit(post: Post) | ToRelease | ToLeave

  /** A new connection, or a command of client c. */
  datatype Event = Arrives | Sends(c: nat, command: Command)

  ghost predicate Possible(b: Board, e: Event) {
    e.Sends? ==> e.c < |b.clients| && b.clients[e.c].connected && (e.command.ToSubmit? ==> Sized(e.command.post))
  }

  function Do(b: Board, e: Event, foreign: seq<Lock>): Board
    requires WellFormed(b) && Possible(b, e) && |foreign| == RECORD_NUM
  {
    if e.Arrives? then Accept(b)
    else
      match e.command
      case ToPull => Pull(b, foreign)
      case ToPost => PostReq(b, e.c, foreign)
      case ToSubmit(post) => PostContent(b, e.c, post)
      case ToRelease => ReleaseLock(b, e.c)
      case ToLeave => FreeClient(b, e.c)
  }

  // ---------- agreement ----------

  ghost predicate Owns(b: Board, c: nat, s: int) {
    c < |b.clients| && b.clients[c].connected && b.clients[c].postId == s
  }

  ghost predicate Owned(b: Board, s: nat) {
    exists c :: Owns(b, c, s)
  }

  /** A slot is in the table exactly when one connected client has it and exactly when the process holds the
      write lock on its record. */
  ghost predicate Agree(b: Board) {
    && WellFormed(b)
    && (forall s :: 0 <= s < RECORD_NUM ==> (b.locked[s] <==> Owned(b, s)))
    && (forall s :: 0 <= s < RECORD_NUM ==> b.held[s] == if b.locked[s] then WriteLock else Unlocked)
    && (forall c, d ::
          0 <= c < |b.clients| && 0 <= d < |b.clients| && b.clients[c].postId == b.clients[d].postId != NO_POST ==>
            c == d)
    && (forall c :: 0 <= c < |b.clients| && !b.clients[c].connected ==> b.clients[c].postId == NO_POST)
  }

  /** What the client program does: it asks for a slot only when it has none. */
  ghost predicate Orderly(b: Board, e: Event) {
    Possible(b, e) && (e.Sends? && e.command == ToPost ==> b.clients[e.c].postId == NO_POST)
  }

  lemma {:induction false} Empty(m: nat, records: seq<Post>)
    requires |records| == RECORD_NUM && forall k :: 0 <= k < RECORD_NUM ==> Sized(records[k])
    ensures Agree(Board(seq(RECORD_NUM, _ => false), seq(RECORD_NUM, _ => Unlocked), seq(m, _ => NOBODY), 0, records))
  {
  }

  /** `post_req` grants the first available slot in circular order after the last one granted, and refuses
      if and only if no slot is available. */
  lemma {:induction false} FirstInCircle(b: Board, foreign: seq<Lock>)
    requires WellFormed(b) && |foreign| == RECORD_NUM
    ensures Granted(b, foreign) <==> exists s :: 0 <= s < RECORD_NUM && Available(b, foreign, s)
    ensures Granted(b, foreign) ==> Available(b, foreign, Chosen(b, foreign))
    ensures forall s :: Granted(b, foreign) && 0 <= s < RECORD_NUM && Available(b, foreign, s) ==>
      Ahead(b.last, Chosen(b, foreign)) <= Ahead(b.last, s)
  {
    var r := Search(b, foreign, 0);
    forall s | 0 <= s < RECORD_NUM && Available(b, foreign, s) ensures r <= Ahead(b.last, s) {
      RoundTheCircle(b.last, s, 0);
    }
    if r < RECORD_NUM { RoundTheCircle(b.last, 0, r); }
  }

  /** Client c gets slot s: it is not in the table and no other process has a lock, of either kind, on its record,
      which holds for no slot between the one that is next in turn and s, around the circle. It enters the table,
      the process write-locks its record, and the one behind it is next in turn. */
  ghost predicate Gets(b: Board, c: nat, foreign: seq<Lock>, n: Board, s: nat)
    requires |b.locked| == |b.held| == |foreign| == RECORD_NUM && c < |b.clients|
  {
    && s < RECORD_NUM && !b.locked[s] && foreign[s] == Unlocked
    && (forall k :: 0 <= k < RECORD_NUM && (k - b.last) % RECORD_NUM < (s - b.last) % RECORD_NUM ==>
          b.locked[k] || foreign[k] != Unlocked)
    && n == Board(b.locked[s := true], b.held[s := WriteLock], b.clients[c := Client(b.clients[c].connected, s)],
                  (s + 1) % RECORD_NUM, b.records)
  }

  /** A request is refused, and changes nothing, if and only if every slot is in the table or has a lock of another
      process; otherwise the client gets the first one that has not. */
  lemma {:induction false} RequestGets(b: Board, c: nat, foreign: seq<Lock>)
    requires WellFormed(b) && |foreign| == RECORD_NUM && c < |b.clients|
    ensures var n := PostReq(b, c, foreign);
            && (n == b <==> forall s :: 0 <= s < RECORD_NUM ==> b.locked[s] || foreign[s] != Unlocked)
            && (n != b ==> exists s :: Gets(b, c, foreign, n, s))
  {
    var n, r := PostReq(b, c, foreign), Search(b, foreign, 0);
    Passed(b, foreign, r);
    if r < RECORD_NUM {
      var s := SlotAt(b.last, r);
      RoundTheCircle(b.last, s, r);
      AheadIs(b.last, s);
      assert n.locked[s] && !b.locked[s];
      assert Gets(b, c, foreign, n, s);
    }
  }

  lemma {:induction false} NotFound(b: Board, foreign: seq<Lock>, i: nat, r: nat)
    requires |b.locked| == |foreign| == RECORD_NUM && r == Search(b, foreign, 0) && i < r
    ensures b.locked[SlotAt(b.last, i)] || foreign[SlotAt(b.last, i)] != Unlocked
  {
    assert !Available(b, foreign, SlotAt(b.last, i));
  }

  /** The slots that a search has gone past. */
  lemma {:induction false} Passed(b: Board, foreign: seq<Lock>, r: nat)
    requires WellFormed(b) && |foreign| == RECORD_NUM && r == Search(b, foreign, 0)
    ensures forall k :: 0 <= k < RECORD_NUM && (k - b.last) % RECORD_NUM < r ==> b.locked[k] || foreign[k] != Unlocked
  {
    forall k | 0 <= k < RECORD_NUM && (k - b.last) % RECORD_NUM < r ensures b.locked[k] || foreign[k] != Unlocked {
      AheadIs(b.last, k);
      NotFound(b, foreign, Ahead(b.last, k), r);
    }
  }

  // ---------- every command keeps agreement ----------

  lemma {:induction false} PostReqKeeps(b: Board, c: nat, foreign: seq<Lock>)
    requires Agree(b) && |foreign| == RECORD_NUM && c < |b.clients| && b.clients[c].connected
        && b.clients[c].postId == NO_POST
    ensures Agree(PostReq(b, c, foreign))
  {
    if Granted(b, foreign) { GrantKeeps(b, PostReq(b, c, foreign), c, Chosen(b, foreign)); }
  }

  lemma {:induction false} GrantKeeps(b: Board, n: Board, c: nat, s: nat)
    requires Agree(b) && c < |b.clients| && b.clients[c].connected && b.clients[c].postId == NO_POST
    requires s < RECORD_NUM && !b.locked[s] && n.last < RECORD_NUM && n.records == b.records
    requires n.locked == b.locked[s := true] && n.held == b.held[s := WriteLock]
        && n.clients == b.clients[c := b.clients[c].(postId := s)]
    ensures Agree(n)
  {
    assert Owns(n, c, s);
    forall d | 0 <= d < |b.clients| ensures b.clients[d].postId != s {
      if b.clients[d].postId == s { assert Owns(b, d, s); }
    }
    forall k | 0 <= k < RECORD_NUM && k != s ensures Owned(n, k) <==> Owned(b, k) {
      if d :| Owns(b, d, k) { assert Owns(n, d, k); }
      if d :| Owns(n, d, k) { assert Owns(b, d, k); }
    }
  }

  lemma {:induction false} ReleaseKeeps(b: Board, c: nat)
    requires Agree(b) && c < |b.clients|
    ensures Agree(ReleaseLock(b, c)) && ReleaseLock(b, c).clients[c].postId == NO_POST
  {
    var s, n := b.clients[c].postId, ReleaseLock(b, c);
    if s >= 0 {
      assert Owns(b, c, s);
      forall k | 0 <= k < RECORD_NUM && k != s ensures Owned(n, k) <==> Owned(b, k) {
        if d :| Owns(b, d, k) { assert Owns(n, d, k); }
        if d :| Owns(n, d, k) { assert Owns(b, d, k); }
      }
    }
  }

  /** A change of the records, or of who is connected among the clients without a slot. */
  lemma {:induction false} SideKeeps(b: Board, n: Board)
    requires Agree(b) && WellFormed(n) && n.locked == b.locked && n.held == b.held && |n.clients| == |b.clients|
    requires forall c :: 0 <= c < |b.clients| ==>
      n.clients[c].postId == b.clients[c].postId && (b.clients[c].postId != NO_POST ==> n.clients[c].connected)
    ensures Agree(n)
  {
    forall k | 0 <= k < RECORD_NUM ensures Owned(n, k) <==> Owned(b, k) {
      if d :| Owns(b, d, k) { assert Owns(n, d, k); }
      if d :| Owns(n, d, k) { assert Owns(b, d, k); }
    }
  }

  /** A pull takes a read lock on every record it reads and drops it again; no write lock of the server is
      among them, and nothing has changed afterwards. */
  lemma {:induction false} PullLeavesAll(b: Board, foreign: seq<Lock>)
    requires Agree(b) && |foreign| == RECORD_NUM
    ensures Pull(b, foreign) == b
  {
    assert Pull(b, foreign).held == b.held;
  }

  /** Table, clients and kernel agree after every command of an orderly client, whatever the locks of other
      processes. */
  lemma {:induction false} EventKeeps(b: Board, e: Event, foreign: seq<Lock>)
    requires Agree(b) && Orderly(b, e) && |foreign| == RECORD_NUM
    ensures Agree(Do(b, e, foreign))
  {
    if e.Arrives? { SideKeeps(b, Accept(b)); }
    else if e.command == ToPull { PullLeavesAll(b, foreign); }
    else if e.command == ToPost { PostReqKeeps(b, e.c, foreign); }
    else if e.command == ToRelease { ReleaseKeeps(b, e.c); }
    else if e.command == ToLeave {
      ReleaseKeeps(b, e.c);
      SideKeeps(ReleaseLock(b, e.c), FreeClient(b, e.c));
    } else if b.clients[e.c].postId >= 0 {
      var n := b.(records := b.records[b.clients[e.c].postId := NormalPost(e.command.post)]);
      SideKeeps(b, n);
      ReleaseKeeps(n, e.c);
    }
  }

  /** A newcomer gets the first place whose client is not connected, and is turned away if there is none. */
  lemma {:induction false} ArrivalConnects(b: Board, foreign: seq<Lock>)
    requires WellFormed(b) && |foreign| == RECORD_NUM
    ensures var n := Do(b, Arrives, foreign);
      if forall c :: 0 <= c < |b.clients| ==> b.clients[c].connected then n == b
      else exists c :: 0 <= c < |b.clients| && !b.clients[c].connected
             && (forall d :: 0 <= d < c ==> b.clients[d].connected)
             && n == b.(clients := b.clients[c := Client(true, b.clients[c].postId)])
  {
    var c := FirstFree(b.clients);
    assert c < |b.clients| ==> !b.clients[c].connected;
  }

  /** A client that leaves gives up its place and its slot, if it has one: out of the table, and unlocked. */
  lemma {:induction false} LeaverFrees(b: Board, c: nat, foreign: seq<Lock>)
    requires Agree(b) && c < |b.clients| && b.clients[c].connected && |foreign| == RECORD_NUM
    ensures var s, n := b.clients[c].postId, Do(b, Sends(c, ToLeave), foreign);
      n == Board(if s < 0 then b.locked else b.locked[s := false], if s < 0 then b.held else b.held[s := Unlocked],
                 b.clients[c := Client(false, NO_POST)], b.last, b.records)
  {
    if b.clients[c].postId >= 0 { assert Owns(b, c, b.clients[c].postId); }
  }

  /** A release gives up the slot and not the place. */
  lemma {:induction false} ReleaseFrees(b: Board, c: nat, foreign: seq<Lock>)
    requires Agree(b) && c < |b.clients| && b.clients[c].connected && |foreign| == RECORD_NUM
    ensures var s, n := b.clients[c].postId, Do(b, Sends(c, ToRelease), foreign);
      n == Board(if s < 0 then b.locked else b.locked[s := false], if s < 0 then b.held else b.held[s := Unlocked],
                 b.clients[c := Client(true, NO_POST)], b.last, b.records)
  {
    if b.clients[c].postId >= 0 { assert Owns(b, c, b.clients[c].postId); }
    else { assert b.clients[c := Client(true, NO_POST)] == b.clients; }
  }

  // ---------- runs ----------

  /** An event, and the locks that other processes hold at that time. */
  datatype Moment = Moment(event: Event, foreign: seq<Lock>)

  ghost predicate OrderlyRun(b: Board, run: seq<Moment>)
    decreases |run|
  {
    run == [] || (WellFormed(b) && Orderly(b, run[0].event) && |run[0].foreign| == RECORD_NUM
                  && OrderlyRun(Do(b, run[0].event, run[0].foreign), run[1..]))
  }

  ghost function After(b: Board, run: seq<Moment>): Board
    requires OrderlyRun(b, run)
    decreases |run|
  {
    if run == [] then b else After(Do(b, run[0].event, run[0].foreign), run[1..])
  }

  /** At every command boundary of every run of orderly clients. */
  lemma {:induction false} RunAgrees(b: Board, run: seq<Moment>)
    requires Agree(b) && OrderlyRun(b, run)
    ensures Agree(After(b, run))
    decreases |run|
  {
    if run != [] {
      EventKeeps(b, run[0].event, run[0].foreign);
      RunAgrees(Do(b, run[0].event, run[0].foreign), run[1..]);
    }
  }

  ghost predicate Taken(b: Board, s: nat) {
    s < |b.held| && b.held[s] == WriteLock
  }

  /** Only a request makes the process write-lock a record, only its client gets the slot, and no other process had
      a lock on it at that time. */
  lemma {:induction false} EventRespects(b: Board, e: Event, foreign: seq<Lock>, s: nat)
    requires WellFormed(b) && Possible(b, e) && |foreign| == RECORD_NUM && s < RECORD_NUM
    requires !Taken(b, s) && Taken(Do(b, e, foreign), s)
    ensures e.Sends? && e.command == ToPost && Do(b, e, foreign).clients[e.c].postId == s
    ensures !b.locked[s] && foreign[s] == Unlocked
  {
    if e.Sends? && e.command == ToPost { RequestGets(b, e.c, foreign); }
  }

  lemma {:induction false} RunGrows(b: Board, run: seq<Moment>, k: nat)
    requires OrderlyRun(b, run) && k < |run| && WellFormed(b)
    ensures OrderlyRun(b, run[..k]) && OrderlyRun(b, run[..k + 1])
    ensures var n := After(b, run[..k]);
            && WellFormed(n) && Orderly(n, run[k].event) && |run[k].foreign| == RECORD_NUM
            && After(b, run[..k + 1]) == Do(n, run[k].event, run[k].foreign)
    decreases k
  {
    var n := Do(b, run[0].event, run[0].foreign);
    if k == 0 {
      assert run[..1][1..] == [] && OrderlyRun(n, []);
    } else {
      StaysWellFormed(b, run[0].event, run[0].foreign);
      RunGrows(n, run[1..], k - 1);
      assert run[..k][1..] == run[1..][..k - 1] && run[..k + 1][1..] == run[1..][..k];
    }
  }

  lemma {:induction false} StaysWellFormed(b: Board, e: Event, foreign: seq<Lock>)
    requires WellFormed(b) && Possible(b, e) && |foreign| == RECORD_NUM
    ensures WellFormed(Do(b, e, foreign))
  {
  }

  /** In every run, a record that the process comes to write-lock at moment k was unlocked by all others then, and
      its slot goes to the client whose request it is. */
  lemma {:induction false} RunRespects(b: Board, run: seq<Moment>, k: nat, s: nat)
    requires WellFormed(b) && OrderlyRun(b, run) && k < |run| && s < RECORD_NUM
    ensures OrderlyRun(b, run[..k]) && OrderlyRun(b, run[..k + 1]) && |run[k].foreign| == RECORD_NUM
    ensures var before, later, e := After(b, run[..k]), After(b, run[..k + 1]), run[k].event;
      !Taken(before, s) && Taken(later, s) ==>
        && run[k].foreign[s] == Unlocked && e.Sends? && e.command == ToPost
        && e.c < |later.clients| && later.clients[e.c].postId == s
  {
    RunGrows(b, run, k);
    var n := After(b, run[..k]);
    if !Taken(n, s) && Taken(After(b, run[..k + 1]), s) { EventRespects(n, run[k].event, run[k].foreign, s); }
  }

  ghost predicate CleanPost(p: Post) {
    Sized(p) && Canonical(p.from) && Canonical(p.content)
  }

  /** The file holds only records that `post_content` could have written. */
  ghost predicate Clean(b: Board) {
    forall s :: 0 <= s < |b.records| ==> CleanPost(b.records[s])
  }

  lemma {:induction false} NormalIsClean(p: Post)
    requires Sized(p)
    ensures CleanPost(NormalPost(p)) && (CleanPost(p) ==> NormalPost(p) == p)
  {
    NormalIsCanonical(p.from, 0);
    NormalIsCanonical(p.content, 0);
  }

  /** Only a submitted post changes the file, and only in the slot of its client. */
  lemma {:induction false} FileChanges(b: Board, e: Event, foreign: seq<Lock>)
    requires WellFormed(b) && Possible(b, e) && |foreign| == RECORD_NUM
    ensures var s := if e.Sends? then b.clients[e.c].postId else NO_POST;
            Do(b, e, foreign).records == if e.Sends? && e.command.ToSubmit? && s >= 0
                then b.records[s := NormalPost(e.command.post)] else b.records
  {
  }

  lemma {:induction false} StaysClean(b: Board, e: Event, foreign: seq<Lock>)
    requires WellFormed(b) && Possible(b, e) && |foreign| == RECORD_NUM && Clean(b)
    ensures Clean(Do(b, e, foreign))
  {
    FileChanges(b, e, foreign);
    if e.Sends? && e.command.ToSubmit? { NormalIsClean(e.command.post); }
  }

  lemma {:induction false} IncludedClean(b: Board, closed: seq<bool>, n: nat, k: nat)
    requires WellFormed(b) && Clean(b) && |closed| == RECORD_NUM && n <= RECORD_NUM
        && k < |Included(b.records, closed, n)|
    ensures NormalPost(Included(b.records, closed, n)[k]) == Included(b.records, closed, n)[k]
    decreases n
  {
    if k < |Included(b.records, closed, n - 1)| { IncludedClean(b, closed, n - 1, k); }
        else { NormalIsClean(b.records[n - 1]); }
  }

  /** After any run from a clean file, what a client makes of the answer to its pull is, in slot order, the
      records of the file that are neither blank nor closed. */
  lemma {:induction false} PullsAreExact(b: Board, run: seq<Moment>, foreign: seq<Lock>)
    requires Agree(b) && Clean(b) && OrderlyRun(b, run) && |foreign| == RECORD_NUM
    ensures var n := After(b, run);
            WellFormed(n) && var posts := Included(n.records, ClosedTo(n, foreign),
                RECORD_NUM); Decoded(Response(posts)) == posts
    decreases |run|
  {
    if run == [] {
      var closed := ClosedTo(b, foreign);
      var posts := Included(b.records, closed, RECORD_NUM);
      PullRoundTrip(b.records, closed);
      forall k | 0 <= k < |posts| ensures Decoded(Response(posts))[k] == posts[k] { IncludedClean(b, closed, RECORD_NUM,
          k); }
    } else {
      var n := Do(b, run[0].event, run[0].foreign);
      EventKeeps(b, run[0].event, run[0].foreign);
      StaysClean(b, run[0].event, run[0].foreign);
      PullsAreExact(n, run[1..], foreign);
    }
  }

  // ---------- a client that asks twice ----------

  /** Slot s is in the table and nobody can release it. */
  ghost predicate Lost(b: Board, s: nat) {
    WellFormed(b) && s < RECORD_NUM && b.locked[s] && forall c :: 0 <= c < |b.clients| ==> b.clients[c].postId != s
  }

  /** A request keeps agreement exactly when the client has no slot or is refused. */
  lemma {:induction false} AskedTwice(b: Board, c: nat, foreign: seq<Lock>)
    requires Agree(b) && |foreign| == RECORD_NUM && c < |b.clients| && b.clients[c].connected
    ensures Agree(PostReq(b, c, foreign)) <==> b.clients[c].postId == NO_POST || !Granted(b, foreign)
    ensures b.clients[c].postId != NO_POST && Granted(b, foreign) ==> Lost(PostReq(b, c, foreign), b.clients[c].postId)
  {
    if b.clients[c].postId == NO_POST {
      PostReqKeeps(b, c, foreign);
    } else if Granted(b, foreign) {
      var s, n := b.clients[c].postId, PostReq(b, c, foreign);
      assert Owns(b, c, s);
      assert !Owned(n, s);
    }
  }

  /** A slot that is lost stays so, whatever anybody does. */
  lemma {:induction false} LostForGood(b: Board, e: Event, foreign: seq<Lock>, s: nat)
    requires Lost(b, s) && Possible(b, e) && |foreign| == RECORD_NUM
    ensures Lost(Do(b, e, foreign), s)
  {
  }

  // ---------- where posts land ----------

  /** Nobody has a slot. */
  ghost predicate Idle(b: Board) {
    && WellFormed(b)
    && (forall s :: 0 <= s < RECORD_NUM ==> !b.locked[s] && b.held[s] == Unlocked)
    && (forall c :: 0 <= c < |b.clients| ==> b.clients[c].postId == NO_POST)
  }

  /** Client c has slot s, the last one granted, and nobody else has any. */
  ghost predicate HeldBy(b: Board, c: nat, s: nat) {
    && WellFormed(b) && s < RECORD_NUM && b.last == SlotAt(s, 1)
    && c < |b.clients| && b.clients[c] == Client(true, s)
    && (forall k :: 0 <= k < RECORD_NUM ==> (b.locked[k] <==> k == s))
    && (forall k :: 0 <= k < RECORD_NUM ==> b.held[k] == if k == s then WriteLock else Unlocked)
    && (forall d :: 0 <= d < |b.clients| && d != c ==> b.clients[d].postId == NO_POST)
  }

  /** At most one client has a slot, and `s` is the slot of the next post to be written. */
  ghost predicate Turn(b: Board, s: nat) {
    (Idle(b) && b.last == s) || exists c :: HeldBy(b, c, s)
  }

  /** What may happen at such a time: no request is granted while somebody has a slot, or while another process
      holds a lock, and whoever has a slot neither gives it back nor goes away. */
  ghost predicate Fitting(b: Board, m: Moment) {
    && WellFormed(b) && Orderly(b, m.event) && |m.foreign| == RECORD_NUM
    && (m.event.Sends? ==>
          && (m.event.command == ToPost && Granted(b, m.foreign) ==>
                Idle(b) && forall k :: 0 <= k < RECORD_NUM ==> m.foreign[k] == Unlocked)
          && (m.event.command == ToRelease || m.event.command == ToLeave ==> b.clients[m.event.c].postId == NO_POST))
  }

  /** The post that is written at this time, if one is. */
  function Written(b: Board, m: Moment): (r: seq<Post>)
    requires WellFormed(b) && Possible(b, m.event)
    ensures |r| <= 1
  {
    if m.event.Sends? && m.event.command.ToSubmit? && b.clients[m.event.c].postId >= 0
    then [NormalPost(m.event.command.post)] else []
  }

  lemma {:induction false} GrantsNext(b: Board, c: nat, foreign: seq<Lock>)
    requires Idle(b) && c < |b.clients| && b.clients[c].connected && |foreign| == RECORD_NUM
    requires forall k :: 0 <= k < RECORD_NUM ==> foreign[k] == Unlocked
    ensures Granted(b, foreign) && Chosen(b, foreign) == b.last && HeldBy(PostReq(b, c, foreign), c, b.last)
  {
    RoundTheCircle(b.last, b.last, 0);
    assert SlotAt(b.last, 0) == b.last;
    assert Available(b, foreign, SlotAt(b.last, 0));
  }

  /** The holder of a slot fills it. */
  lemma {:induction false} HolderSubmits(b: Board, c: nat, s: nat, post: Post)
    requires HeldBy(b, c, s) && Sized(post)
    ensures var n := PostContent(b, c, post);
            Idle(n) && n.records == b.records[s := NormalPost(post)] && n.last == SlotAt(s, 1)
  {
  }

  /** What anybody does on an idle board, a granted request aside. */
  lemma {:induction false} IdleStays(b: Board, m: Moment)
    requires Idle(b) && Fitting(b, m)
    requires !(m.event.Sends? && m.event.command == ToPost && Granted(b, m.foreign))
    ensures var n := Do(b, m.event, m.foreign); Idle(n) && n.records == b.records && n.last == b.last
  {
    FileChanges(b, m.event, m.foreign);
  }

  /** What anybody does while client c has its slot, its submission aside. */
  lemma {:induction false} HeldStays(b: Board, m: Moment, c: nat, s: nat)
    requires HeldBy(b, c, s) && Fitting(b, m) && Written(b, m) == []
    ensures var n := Do(b, m.event, m.foreign); HeldBy(n, c, s) && n.records == b.records
  {
    FileChanges(b, m.event, m.foreign);
    if m.event.Sends? && m.event.command == ToPull { assert Pull(b, m.foreign).held == b.held; }
  }

  lemma {:induction false} MomentTurns(b: Board, m: Moment, s: nat)
    requires Turn(b, s) && Fitting(b, m)
    ensures var n, w := Do(b, m.event, m.foreign), Written(b, m);
            && s < |b.records| && n.records == (if w == [] then b.records else b.records[s := w[0]])
            && Turn(n, if w == [] then s else SlotAt(s, 1))
  {
    if Idle(b) {
      if m.event.Sends? && m.event.command == ToPost && Granted(b, m.foreign) { GrantsNext(b, m.event.c, m.foreign); }
      else { IdleStays(b, m); }
    } else {
      var c :| HeldBy(b, c, s);
      if Written(b, m) == [] { HeldStays(b, m, c, s); } else { HolderSubmits(b, c, s, m.event.command.post); }
    }
  }

  /** A run in which posts are written one after the other. */
  ghost predicate Serial(b: Board, run: seq<Moment>)
    decreases |run|
  {
    run == [] || (Fitting(b, run[0]) && Serial(Do(b, run[0].event, run[0].foreign), run[1..]))
  }

  /** The posts that it writes, in order. */
  ghost function Posts(b: Board, run: seq<Moment>): seq<Post>
    requires Serial(b, run)
    decreases |run|
  {
    if run == [] then [] else Written(b, run[0]) + Posts(Do(b, run[0].event, run[0].foreign), run[1..])
  }

  /** After such a run the file is what the posts alone, in turn, make of it, whatever else happens between
      requests, and between a request and its submission. */
  lemma {:induction false} PostingsLand(b: Board, run: seq<Moment>, s: nat)
    requires Turn(b, s) && Serial(b, run)
    ensures OrderlyRun(b, run) && s < RECORD_NUM == |b.records| && |After(b, run).records| == RECORD_NUM
    ensures After(b, run).records == Ring(b.records, s, Posts(b, run))
    decreases |run|
  {
    if run != [] {
      var n, w := Do(b, run[0].event, run[0].foreign), Written(b, run[0]);
      MomentTurns(b, run[0], s);
      PostingsLand(n, run[1..], if w == [] then s else SlotAt(s, 1));
      var rest := Posts(n, run[1..]);
      if w == [] { assert w + rest == rest; } else { RingTail(b.records, s, w[0], w, rest); }
    }
  }

  lemma {:induction false} RingTail(records: seq<Post>, s: nat, p: Post, w: seq<Post>, rest: seq<Post>)
    requires |records| == RECORD_NUM && s < RECORD_NUM && w == [p]
    ensures Ring(records, s, w + rest) == Ring(records[s := p], SlotAt(s, 1), rest)
  {
    RingFirst(records, s, w + rest);
    assert (w + rest)[1..] == rest && (w + rest)[0] == p;
    RoundTheCircle(s, s, 0);
  }

  /** Post number k of such a run lands in slot last + k, around the circle, and stays there for ten posts:
      each slot holds the latest post whose number leaves its remainder. A slot that no post reaches is as it
      was. */
  lemma {:induction false} LatestOfItsClass(b: Board, run: seq<Moment>, k: nat, s: nat)
    requires Idle(b) && Serial(b, run)
    ensures OrderlyRun(b, run) && |After(b, run).records| == RECORD_NUM
    ensures var ps := Posts(b, run);
            k < |ps| <= k + RECORD_NUM ==> After(b, run).records[SlotAt(b.last, k)] == ps[k]
    ensures s < RECORD_NUM && |Posts(b, run)| <= Ahead(b.last, s) ==> After(b, run).records[s] == b.records[s]
  {
    PostingsLand(b, run, b.last);
    var ps := Posts(b, run);
    if k < |ps| <= k + RECORD_NUM { RingLatest(b.records, b.last, ps, k); }
    if s < RECORD_NUM && |ps| <= Ahead(b.last, s) { RingUntouched(b.records, b.last, ps, s); }
  }
}
